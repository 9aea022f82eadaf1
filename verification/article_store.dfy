/**
 * The server's content collections: the blog articles the admin creates,
 * updates and deletes, and the trade-in leads and contact messages the public
 * forms submit. Each collection is a list held newest first; the JSON files the
 * server reads and rewrites on every request are the fields of `ContentStore`.
 * Ids and formatted dates are parameters.
 */
module ArticleStore {
  import opened Wrappers
  import opened Text
  import opened Slug

  /** A request-body field: missing, JSON null, or a string. */
  datatype Field = Absent | Null | Str(s: string)
  {
    /** JavaScript truthiness: a non-empty string. */
    predicate Truthy() { Str? && s != [] }

    /** `field || fallback` */
    function Or(fallback: string): (r: string)
      ensures Truthy() ==> r == s
      ensures !Truthy() ==> r == fallback
    {
      if Truthy() then s else fallback
    }
  }

  // ---------------------------------------------------------------- reading time

  /** replace(/<[^>]*>/g, ''): drop every '<' up to the next '>', when there is one. */
  function StripTags(s: string): (r: string)
    ensures |r| <= |s|
    ensures '<' !in s ==> r == s
    decreases |s|
  {
    if s == [] then []
    else if s[0] == '<' && '>' in s[1..] then
      var close := IndexOf(s[1..], '>');
      StripTags(s[close + 2..])
    else [s[0]] + StripTags(s[1..])
  }

  /** Drops the maximal prefix of white space. */
  function SkipSpaces(s: string): (r: string)
    ensures |r| <= |s| && r == s[|s| - |r|..]
    ensures r == [] || !IsSpace(r[0])
  {
    if s != [] && IsSpace(s[0]) then SkipSpaces(s[1..]) else s
  }

  /** The number of maximal runs of white space. */
  function SpaceRuns(s: string): nat
    decreases |s|
  {
    if s == [] then 0
    else if IsSpace(s[0]) then 1 + SpaceRuns(SkipSpaces(s))
    else SpaceRuns(s[1..])
  }

  /** `.split(/\s+/).length`: one piece more than there are runs of white space. */
  function WordCount(contenu: string): (n: nat)
    ensures n >= 1
  {
    SpaceRuns(StripTags(contenu)) + 1
  }

  /** tempsLecture: Math.max(1, Math.ceil(words / 200)) minutes. */
  function ReadingTime(contenu: string): (m: nat)
    ensures m >= 1
    ensures m * 200 >= WordCount(contenu)
    ensures m == 1 || (m - 1) * 200 < WordCount(contenu)
  {
    Max(1, CeilDiv(WordCount(contenu), 200))
  }

  /** A word of plain text: no white space and no tag. */
  const Word: string := "mot"

  /** `n` copies of a word separated by single spaces. */
  function Words(n: nat): (s: string)
    requires n >= 1
    ensures s != [] && s[0] == 'm'
    ensures '<' !in s
  {
    if n == 1 then Word else Word + [' '] + Words(n - 1)
  }

  /** Characters other than white space before a text add no run. */
  lemma {:induction false} SpaceRunsAfterWord(w: string, s: string)
    requires forall i | 0 <= i < |w| :: !IsSpace(w[i])
    ensures SpaceRuns(w + s) == SpaceRuns(s)
  {
    if w != [] {
      SpaceRunsAfterWord(w[1..], s);
      var ws := w + s;
      assert ws[0] == w[0] && !IsSpace(ws[0]);
      assert ws[1..] == w[1..] + s;
      assert SpaceRuns(ws) == SpaceRuns(ws[1..]);
    } else {
      assert w + s == s;
    }
  }

  /** One space in front of a word adds one run. */
  lemma SpaceRunsAfterSpace(s: string)
    requires s != [] && !IsSpace(s[0])
    ensures SpaceRuns([' '] + s) == 1 + SpaceRuns(s)
  {
    var t := [' '] + s;
    assert t[0] == ' ' && t[1..] == s;
    assert SkipSpaces(t) == SkipSpaces(s);
    assert SkipSpaces(s) == s;
  }

  lemma {:induction false} WordsCount(n: nat)
    requires n >= 1
    ensures SpaceRuns(Words(n)) == n - 1
  {
    assert forall i | 0 <= i < |Word| :: !IsSpace(Word[i]);
    if n > 1 {
      WordsCount(n - 1);
      SpaceRunsAfterSpace(Words(n - 1));
      SpaceRunsAfterWord(Word, [' '] + Words(n - 1));
      assert Words(n) == Word + ([' '] + Words(n - 1));
    } else {
      SpaceRunsAfterWord(Word, []);
      assert Word + [] == Word;
    }
  }

  /** Plain text of n words reads in ceil(n / 200) minutes: 150 words in one, 450 in three. */
  lemma ReadingTimeOfWords(n: nat)
    requires n >= 1
    ensures WordCount(Words(n)) == n
    ensures ReadingTime(Words(n)) == CeilDiv(n, 200)
  {
    WordsCount(n);
  }

  lemma ReadingTimeExamples()
    ensures ReadingTime(Words(150)) == 1
    ensures ReadingTime(Words(450)) == 3
    ensures ReadingTime("") == 1
  {
    ReadingTimeOfWords(150);
    ReadingTimeOfWords(450);
  }

  // ---------------------------------------------------------------- records

  datatype Article = Article(
    slug: string,
    titre: string,
    metaTitle: Option<string>,
    metaDescription: string,
    extrait: string,
    categorie: string,
    categorieSlug: string,
    tags: Option<seq<string>>,
    date: string,
    dateISO: string,
    tempsLecture: nat,
    emoji: string,
    image: Option<string>,
    imageAlt: Option<string>,
    auteur: string,
    contenu: string,
    dateModified: Option<string>)

  /** The body of a create or update request. */
  datatype ArticleForm = ArticleForm(
    titre: Field, metaTitle: Field, metaDescription: Field, extrait: Field, categorie: Field,
    tags: Field, emoji: Field, image: Field, imageAlt: Field, contenu: Field, auteur: Field)

  const DefaultEmoji: string := "\U{1F4F0}"
  const DefaultAuthor: string := "Equipe LUNICAR"

  /** tags.split(',').map(t => t.trim()) */
  function TagList(tags: string): (r: seq<string>)
    ensures |r| >= 1
  {
    var parts := Split(tags, ',');
    seq(|parts|, i requires 0 <= i < |parts| => Trim(parts[i]))
  }

  /** `field || null` */
  function OrNull(f: Field): (r: Option<string>)
    ensures r.Some? <==> f.Truthy()
  {
    if f.Truthy() then Some(f.s) else None
  }

  /** `field !== undefined ? field : fallback` */
  function IfDefined(f: Field, fallback: Option<string>): (r: Option<string>)
    ensures f.Absent? ==> r == fallback
    ensures f.Null? ==> r == None
    ensures f.Str? ==> r == Some(f.s)
  {
    match f
    case Absent => fallback
    case Null => None
    case Str(s) => Some(s)
  }

  /** The four fields a new article cannot do without. */
  predicate Complete(f: ArticleForm)
  {
    f.titre.Truthy() && f.extrait.Truthy() && f.categorie.Truthy() && f.contenu.Truthy()
  }

  /** The article a complete form creates. */
  function NewArticle(f: ArticleForm, date: string, dateISO: string): (a: Article)
    requires Complete(f)
    ensures a.slug == Slugify(f.titre.s) && IsSlug(a.slug)
    ensures a.titre == f.titre.s && a.extrait == f.extrait.s && a.contenu == f.contenu.s
    ensures a.categorie == f.categorie.s && a.categorieSlug == CategorySlug(f.categorie.s)
    ensures a.tags.Some? && |a.tags.value| >= 1
    ensures !f.tags.Truthy() ==> a.tags == Some([f.categorie.s])
    ensures a.tempsLecture == ReadingTime(f.contenu.s) >= 1
    ensures a.metaDescription == f.metaDescription.Or(f.extrait.s)
    ensures a.metaTitle == OrNull(f.metaTitle) && a.image == OrNull(f.image) && a.imageAlt == OrNull(f.imageAlt)
    ensures a.emoji == f.emoji.Or(DefaultEmoji) && a.auteur == f.auteur.Or(DefaultAuthor)
    ensures a.date == date && a.dateISO == dateISO && a.dateModified == None
  {
    Article(
      slug := Slugify(f.titre.s),
      titre := f.titre.s,
      metaTitle := OrNull(f.metaTitle),
      metaDescription := f.metaDescription.Or(f.extrait.s),
      extrait := f.extrait.s,
      categorie := f.categorie.s,
      categorieSlug := CategorySlug(f.categorie.s),
      tags := Some(if f.tags.Truthy() then TagList(f.tags.s) else [f.categorie.s]),
      date := date,
      dateISO := dateISO,
      tempsLecture := ReadingTime(f.contenu.s),
      emoji := f.emoji.Or(DefaultEmoji),
      image := OrNull(f.image),
      imageAlt := OrNull(f.imageAlt),
      auteur := f.auteur.Or(DefaultAuthor),
      contenu := f.contenu.s,
      dateModified := None)
  }

  /** The article after an update: supplied fields replace, others are kept; slug and dates of creation never change. */
  function Patched(old_: Article, f: ArticleForm, dateModified: string): (a: Article)
    ensures a.slug == old_.slug && a.date == old_.date && a.dateISO == old_.dateISO
    ensures a.dateModified == Some(dateModified)
    ensures a.titre == f.titre.Or(old_.titre) && a.extrait == f.extrait.Or(old_.extrait)
    ensures a.contenu == f.contenu.Or(old_.contenu) && a.categorie == f.categorie.Or(old_.categorie)
    ensures a.categorieSlug == CategorySlug(a.categorie)
    ensures f.contenu.Truthy() ==> a.tempsLecture == ReadingTime(f.contenu.s)
    ensures !f.contenu.Truthy() ==> a.tempsLecture == old_.tempsLecture
    ensures f.tags.Truthy() ==> a.tags == Some(TagList(f.tags.s))
    ensures !f.tags.Truthy() ==> a.tags == old_.tags
    ensures a.metaTitle == IfDefined(f.metaTitle, old_.metaTitle)
    ensures a.image == IfDefined(f.image, old_.image) && a.imageAlt == IfDefined(f.imageAlt, old_.imageAlt)
    ensures a.metaDescription == f.metaDescription.Or(old_.metaDescription)
    ensures a.emoji == f.emoji.Or(old_.emoji) && a.auteur == f.auteur.Or(old_.auteur)
  {
    var categorie := f.categorie.Or(old_.categorie);
    old_.(
      titre := f.titre.Or(old_.titre),
      metaTitle := IfDefined(f.metaTitle, old_.metaTitle),
      metaDescription := f.metaDescription.Or(old_.metaDescription),
      extrait := f.extrait.Or(old_.extrait),
      categorie := categorie,
      categorieSlug := CategorySlug(categorie),
      tags := if f.tags.Truthy() then Some(TagList(f.tags.s)) else old_.tags,
      emoji := f.emoji.Or(old_.emoji),
      image := IfDefined(f.image, old_.image),
      imageAlt := IfDefined(f.imageAlt, old_.imageAlt),
      auteur := f.auteur.Or(old_.auteur),
      contenu := f.contenu.Or(old_.contenu),
      tempsLecture := if f.contenu.Truthy() then ReadingTime(f.contenu.s) else old_.tempsLecture,
      dateModified := Some(dateModified))
  }

  /** An update with an empty body changes nothing but the modification date. */
  lemma EmptyPatchKeepsArticle(a: Article, dateModified: string)
    requires a.categorieSlug == CategorySlug(a.categorie)
    ensures Patched(a, ArticleForm(Absent, Absent, Absent, Absent, Absent, Absent, Absent, Absent, Absent, Absent, Absent), dateModified)
            == a.(dateModified := Some(dateModified))
  {
  }

  predicate HasSlug(articles: seq<Article>, slug: string)
  {
    exists i | 0 <= i < |articles| :: articles[i].slug == slug
  }

  /** No two articles share a slug. */
  predicate UniqueSlugs(articles: seq<Article>)
  {
    forall i, j | 0 <= i < j < |articles| :: articles[i].slug != articles[j].slug
  }

  /** findIndex(a => a.slug === slug) */
  function FindSlug(articles: seq<Article>, slug: string): (r: Option<nat>)
    ensures r.None? <==> !HasSlug(articles, slug)
    ensures r.Some? ==> r.value < |articles| && articles[r.value].slug == slug
    ensures r.Some? ==> forall i | 0 <= i < r.value :: articles[i].slug != slug
  {
    if articles == [] then None
    else if articles[0].slug == slug then Some(0)
    else
      var r := FindSlug(articles[1..], slug);
      assert HasSlug(articles, slug) ==> HasSlug(articles[1..], slug) by {
        if HasSlug(articles, slug) {
          var i :| 0 <= i < |articles| && articles[i].slug == slug;
          assert articles[1..][i - 1].slug == slug;
        }
      }
      if r.None? then None else Some(r.value + 1)
  }

  /** articles.filter(a => a.slug !== slug) */
  function WithoutSlug(articles: seq<Article>, slug: string): (r: seq<Article>)
    ensures |r| <= |articles|
    ensures forall a :: a in r <==> a in articles && a.slug != slug
  {
    if articles == [] then []
    else (if articles[0].slug == slug then [] else [articles[0]]) + WithoutSlug(articles[1..], slug)
  }

  /** Deleting a slug that is absent changes nothing. */
  lemma {:induction false} WithoutAbsentSlug(articles: seq<Article>, slug: string)
    requires !HasSlug(articles, slug)
    ensures WithoutSlug(articles, slug) == articles
  {
    if articles != [] {
      assert articles[0].slug != slug;
      assert !HasSlug(articles[1..], slug) by {
        forall i | 0 <= i < |articles| - 1 ensures articles[1..][i].slug != slug {
          assert articles[1..][i] == articles[i + 1];
        }
      }
      WithoutAbsentSlug(articles[1..], slug);
      assert articles == [articles[0]] + articles[1..];
    }
  }

  /** Deleting a slug that is present shortens the list. */
  lemma {:induction false} WithoutPresentSlug(articles: seq<Article>, slug: string)
    requires HasSlug(articles, slug)
    ensures |WithoutSlug(articles, slug)| < |articles|
  {
    if articles[0].slug != slug {
      var i :| 0 <= i < |articles| && articles[i].slug == slug;
      assert articles[1..][i - 1].slug == slug;
      WithoutPresentSlug(articles[1..], slug);
    }
  }

  /** Deleting removes something exactly when the slug is present. */
  lemma WithoutSlugShrinks(articles: seq<Article>, slug: string)
    ensures |WithoutSlug(articles, slug)| == |articles| <==> !HasSlug(articles, slug)
    ensures !HasSlug(articles, slug) ==> WithoutSlug(articles, slug) == articles
  {
    if HasSlug(articles, slug) {
      WithoutPresentSlug(articles, slug);
    } else {
      WithoutAbsentSlug(articles, slug);
    }
  }

  /** With unique slugs, deleting a present slug removes exactly the one article that has it. */
  lemma {:induction false} WithoutSlugRemovesOne(articles: seq<Article>, slug: string, k: nat)
    requires UniqueSlugs(articles)
    requires k < |articles| && articles[k].slug == slug
    ensures WithoutSlug(articles, slug) == articles[..k] + articles[k + 1..]
  {
    var tail := articles[1..];
    assert UniqueSlugs(tail) by {
      forall i, j | 0 <= i < j < |tail| ensures tail[i].slug != tail[j].slug {
        assert tail[i] == articles[i + 1] && tail[j] == articles[j + 1];
      }
    }
    if k == 0 {
      assert !HasSlug(tail, slug) by {
        forall i | 0 <= i < |tail| ensures tail[i].slug != slug {
          assert tail[i] == articles[i + 1];
        }
      }
      WithoutAbsentSlug(tail, slug);
    } else {
      assert articles[0].slug != slug;
      assert tail[k - 1] == articles[k];
      WithoutSlugRemovesOne(tail, slug, k - 1);
      assert articles[..k] == [articles[0]] + tail[..k - 1];
      assert articles[k + 1..] == tail[k..];
    }
  }

  lemma RemoveAtKeepsUnique(articles: seq<Article>, k: nat)
    requires UniqueSlugs(articles) && k < |articles|
    ensures UniqueSlugs(articles[..k] + articles[k + 1..])
  {
    var r := articles[..k] + articles[k + 1..];
    forall i, j | 0 <= i < j < |r| ensures r[i].slug != r[j].slug {
      var i' := if i < k then i else i + 1;
      var j' := if j < k then j else j + 1;
      assert r[i] == articles[i'] && r[j] == articles[j'];
    }
  }

  // ---------------------------------------------------------------- leads and messages

  /** The trade-in form fields, copied into the lead as they arrive. */
  datatype LeadForm = LeadForm(
    plaque: Field, marque: Field, modele: Field, annee: Field, kilometrage: Field, carburant: Field,
    boite: Field, etatExterieur: Field, etatInterieur: Field, etatMecanique: Field,
    commentaires: Field, delaiVente: Field, civilite: Field, nom: Field, prenom: Field,
    email: Field, telephone: Field, codePostal: Field)

  datatype Demande = Demande(
    id: string, statut: string, form: LeadForm, commentaires: string, delaiVente: string,
    photos: seq<string>, createdAt: string)

  datatype ContactForm = ContactForm(nom: Field, email: Field, telephone: Field, sujet: Field, message: Field)

  datatype Message = Message(
    id: string, lu: bool, nom: Field, email: Field, telephone: string, sujet: Field, message: Field,
    createdAt: string)

  /** The lead a trade-in submission records: status "nouvelle", optional texts defaulted to "". */
  function NewDemande(id: string, form: LeadForm, photos: Option<seq<string>>, createdAt: string): (d: Demande)
    ensures d.id == id && d.statut == "nouvelle" && d.form == form && d.createdAt == createdAt
    ensures d.commentaires == form.commentaires.Or("") && d.delaiVente == form.delaiVente.Or("")
    ensures d.photos == photos.GetOr([])
  {
    Demande(id, "nouvelle", form, form.commentaires.Or(""), form.delaiVente.Or(""), photos.GetOr([]), createdAt)
  }

  /** The message a contact submission records, unread, with an optional phone defaulted to "". */
  function NewMessage(id: string, form: ContactForm, createdAt: string): (m: Message)
    ensures m.id == id && !m.lu && m.telephone == form.telephone.Or("") && m.createdAt == createdAt
    ensures m.nom == form.nom && m.email == form.email && m.sujet == form.sujet && m.message == form.message
  {
    Message(id, false, form.nom, form.email, form.telephone.Or(""), form.sujet, form.message, createdAt)
  }

  datatype CreateReply = MissingFields | SlugTaken | Created(article: Article)
  datatype UpdateReply = NotFound | Updated(article: Article)

  class ContentStore {
    var articles: seq<Article>
    var demandes: seq<Demande>
    var messages: seq<Message>

    predicate Valid()
      reads this
    {
      UniqueSlugs(articles)
    }

    constructor()
      ensures articles == [] && demandes == [] && messages == []
      ensures Valid()
    {
      articles := [];
      demandes := [];
      messages := [];
    }

    /** POST /api/admin/articles */
    method CreateArticle(f: ArticleForm, date: string, dateISO: string) returns (r: CreateReply)
      modifies this
      ensures demandes == old(demandes) && messages == old(messages)
      ensures !Complete(f) ==> r == MissingFields && articles == old(articles)
      ensures Complete(f) && HasSlug(old(articles), Slugify(f.titre.s)) ==>
        r == SlugTaken && articles == old(articles)
      ensures Complete(f) && !HasSlug(old(articles), Slugify(f.titre.s)) ==>
        r == Created(NewArticle(f, date, dateISO)) && articles == [r.article] + old(articles)
      ensures old(Valid()) ==> Valid()
    {
      if !(f.titre.Truthy() && f.extrait.Truthy() && f.categorie.Truthy() && f.contenu.Truthy()) {
        return MissingFields;
      }
      var slug := Slugify(f.titre.s);
      if FindSlug(articles, slug).Some? {
        return SlugTaken;
      }
      var article := NewArticle(f, date, dateISO);
      articles := [article] + articles;
      r := Created(article);
      if old(Valid()) {
        PrependKeepsUnique(article, old(articles));
      }
    }

    /** PUT /api/admin/articles/:slug */
    method UpdateArticle(slug: string, f: ArticleForm, dateModified: string) returns (r: UpdateReply)
      modifies this
      ensures demandes == old(demandes) && messages == old(messages)
      ensures FindSlug(old(articles), slug).None? ==> r == NotFound && articles == old(articles)
      ensures FindSlug(old(articles), slug).Some? ==>
        var k := FindSlug(old(articles), slug).value;
        r == Updated(Patched(old(articles)[k], f, dateModified))
        && articles == old(articles)[k := r.article]
      ensures old(Valid()) ==> Valid()
    {
      var index := FindSlug(articles, slug);
      if index.None? {
        return NotFound;
      }
      var k := index.value;
      var updated := Patched(articles[k], f, dateModified);
      articles := articles[k := updated];
      r := Updated(updated);
      assert forall i | 0 <= i < |articles| :: articles[i].slug == old(articles)[i].slug;
    }

    /** DELETE /api/admin/articles/:slug; answers whether anything was removed. */
    method DeleteArticle(slug: string) returns (found: bool)
      modifies this
      ensures demandes == old(demandes) && messages == old(messages)
      ensures articles == WithoutSlug(old(articles), slug)
      ensures found <==> HasSlug(old(articles), slug)
      ensures !found ==> articles == old(articles)
      ensures old(Valid()) ==> Valid()
    {
      var initialLength := |articles|;
      articles := WithoutSlug(articles, slug);
      found := |articles| != initialLength;
      WithoutSlugShrinks(old(articles), slug);
      if old(Valid()) && found {
        var k := FindSlug(old(articles), slug).value;
        WithoutSlugRemovesOne(old(articles), slug, k);
        RemoveAtKeepsUnique(old(articles), k);
      }
    }

    /** POST /api/reprise: record the lead first in the list. */
    method SubmitDemande(id: string, form: LeadForm, photos: Option<seq<string>>, createdAt: string)
      returns (referenceId: string)
      modifies this
      ensures referenceId == id
      ensures demandes == [NewDemande(id, form, photos, createdAt)] + old(demandes)
      ensures articles == old(articles) && messages == old(messages)
    {
      demandes := [NewDemande(id, form, photos, createdAt)] + demandes;
      referenceId := id;
    }

    /** POST /api/contact: record the message first in the list. */
    method SubmitMessage(id: string, form: ContactForm, createdAt: string)
      modifies this
      ensures messages == [NewMessage(id, form, createdAt)] + old(messages)
      ensures articles == old(articles) && demandes == old(demandes)
    {
      messages := [NewMessage(id, form, createdAt)] + messages;
    }
  }

  lemma PrependKeepsUnique(a: Article, articles: seq<Article>)
    requires UniqueSlugs(articles) && !HasSlug(articles, a.slug)
    ensures UniqueSlugs([a] + articles)
  {
    var r := [a] + articles;
    forall i, j | 0 <= i < j < |r| ensures r[i].slug != r[j].slug {
      assert r[j] == articles[j - 1];
      if i > 0 {
        assert r[i] == articles[i - 1];
      }
    }
  }
}
