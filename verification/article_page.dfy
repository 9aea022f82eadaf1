/**
 * The single-article page: the title and description fallbacks, the dates of
 * the BlogPosting schema, the tag links, the "related" and sidebar selections
 * from the full list, and the table of contents built from the h2 headings of
 * a long article together with the ids given to those headings.
 */
module ArticlePage {
  import opened Wrappers
  import opened Text
  import opened ArticleStore
  import opened FrenchDate
  import opened ArticleList

  /** `value || fallback` for an optional string. */
  function OrElse(value: Option<string>, fallback: string): (r: string)
    ensures value.Some? && value.value != [] ==> r == value.value
    ensures value.None? || value.value == [] ==> r == fallback
  {
    if value.Some? && value.value != [] then value.value else fallback
  }

  /** document.title: the meta title, or else the title followed by the site name. */
  function PageTitle(a: Article): (r: string)
    ensures a.metaTitle.Some? && a.metaTitle.value != [] ==> r == a.metaTitle.value
    ensures a.metaTitle.None? || a.metaTitle.value == [] ==> r == a.titre + " | LUNICAR"
  {
    OrElse(a.metaTitle, a.titre + " | LUNICAR")
  }

  /** The meta description: the article's own, or else its excerpt. */
  function MetaDescription(a: Article): (r: string)
    ensures a.metaDescription != [] ==> r == a.metaDescription
    ensures a.metaDescription == [] ==> r == a.extrait
  {
    if a.metaDescription != [] then a.metaDescription else a.extrait
  }

  datatype SchemaDates = SchemaDates(datePublished: string, dateModified: string)

  /** The BlogPosting dates, converted by the page's own formatDateISO: the modification date falls back to the publication date. */
  function SchemaDatesOf(a: Article, today: string): (r: SchemaDates)
    ensures r.datePublished == SingleDateISO(a.date, today)
    ensures (a.dateModified.None? || a.dateModified.value == []) ==> r.dateModified == r.datePublished
    ensures a.dateModified.Some? && a.dateModified.value != [] ==> r.dateModified == SingleDateISO(a.dateModified.value, today)
  {
    var published := SingleDateISO(a.date, today);
    SchemaDates(published,
      if a.dateModified.Some? && a.dateModified.value != [] then SingleDateISO(a.dateModified.value, today) else published)
  }

  /**
   * For an article created on day d of month m of year y and never modified, both schema dates
   * are that day, except in August, which the page's conversion reads as January.
   */
  lemma SchemaDatesOfNewArticle(a: Article, d: nat, m: nat, y: nat, today: string)
    requires 1 <= m <= 12 && a.date == LongDate(d, m, y) && a.dateModified.None?
    ensures var shown := IsoDate(d, if m == 8 then 1 else m, y);
            SchemaDatesOf(a, today) == SchemaDates(shown, shown)
  {
    SingleDateISOOfLongDate(d, m, y, today);
  }

  datatype TagLink = TagLink(href: string, name: string)

  /** article.tags || [article.categorie] */
  function TagsOrCategory(a: Article): (r: seq<string>)
    ensures a.tags.Some? ==> r == a.tags.value
    ensures a.tags.None? ==> r == [a.categorie]
  {
    if a.tags.Some? then a.tags.value else [a.categorie]
  }

  /** Each tag links to the list filtered by the lower-cased tag. */
  function TagLinks(a: Article): (r: seq<TagLink>)
    ensures |r| == |TagsOrCategory(a)|
    ensures forall k | 0 <= k < |r| ::
      r[k].name == TagsOrCategory(a)[k] && r[k].href == "/articles?cat=" + LowerString(TagsOrCategory(a)[k])
  {
    var tags := TagsOrCategory(a);
    seq(|tags|, k requires 0 <= k < |tags| => TagLink("/articles?cat=" + LowerString(tags[k]), tags[k]))
  }

  // ---------------------------------------------------------------- related articles

  /** The articles of the category, other than the current one, in list order. */
  function SameCategory(articles: seq<Article>, categorie: string, current: string): (r: seq<Article>)
    ensures |r| <= |articles|
    ensures forall a :: a in r <==> a in articles && a.categorieSlug == categorie && a.slug != current
  {
    if articles == [] then []
    else
      var a := articles[0];
      (if a.categorieSlug == categorie && a.slug != current then [a] else []) + SameCategory(articles[1..], categorie, current)
  }

  /** The articles of other categories, other than the current one, in list order. */
  function OtherCategories(articles: seq<Article>, categorie: string, current: string): (r: seq<Article>)
    ensures |r| <= |articles|
    ensures forall a :: a in r <==> a in articles && a.categorieSlug != categorie && a.slug != current
  {
    if articles == [] then []
    else
      var a := articles[0];
      (if a.categorieSlug != categorie && a.slug != current then [a] else []) + OtherCategories(articles[1..], categorie, current)
  }

  /** loadRelatedArticles: the category's articles first, topped up from other categories only when there are fewer than three. */
  function Related(articles: seq<Article>, categorie: string, current: string): (r: seq<Article>)
    ensures |r| <= 3
    ensures forall a | a in r :: a.slug != current && a in articles
    ensures r == Take(SameCategory(articles, categorie, current) + OtherCategories(articles, categorie, current), 3)
  {
    var same := SameCategory(articles, categorie, current);
    var others := OtherCategories(articles, categorie, current);
    if |same| < 3 then Take(same + others, 3)
    else
      assert (same + others)[..3] == same[..3];
      Take(same, 3)
  }

  /** The related list starts with the category's articles, and takes another category's only when the category has fewer than three. */
  lemma RelatedPrefersCategory(articles: seq<Article>, categorie: string, current: string)
    ensures var same := SameCategory(articles, categorie, current);
            var r := Related(articles, categorie, current);
            r[..Min(3, |same|)] == same[..Min(3, |same|)]
            && (forall k | Min(3, |same|) <= k < |r| :: r[k].categorieSlug != categorie)
  {
    var same := SameCategory(articles, categorie, current);
    var others := OtherCategories(articles, categorie, current);
    TakeOfConcat(same, others, 3);
  }

  /** The first n of x + y: x's own first elements, then only elements of y. */
  lemma TakeOfConcat<T>(x: seq<T>, y: seq<T>, n: nat)
    ensures Take(x + y, n)[..Min(n, |x|)] == x[..Min(n, |x|)]
    ensures forall k | Min(n, |x|) <= k < |Take(x + y, n)| :: Take(x + y, n)[k] in y
  {
    var t := Take(x + y, n);
    forall k | Min(n, |x|) <= k < |t| ensures t[k] in y {
      assert t[k] == y[k - |x|];
    }
  }

  /** The sidebar: the first three articles other than the current one. */
  function Sidebar(articles: seq<Article>, current: string): (r: seq<Article>)
    ensures |r| <= 3
    ensures forall a | a in r :: a.slug != current && a in articles
    ensures |r| == Min(3, |WithoutSlug(articles, current)|) && r == WithoutSlug(articles, current)[..|r|]
  {
    var others := WithoutSlug(articles, current);
    Take(others, 3)
  }

  /**
   * With unique slugs, the sidebar is the first three articles once the current one is taken out
   * of the list; when the current slug is not in the list, it is the "popular" column.
   */
  lemma SidebarSkipsCurrent(articles: seq<Article>, current: string)
    requires UniqueSlugs(articles)
    ensures forall k | 0 <= k < |articles| && articles[k].slug == current ::
              Sidebar(articles, current) == Take(articles[..k] + articles[k + 1..], 3)
    ensures !HasSlug(articles, current) ==> Sidebar(articles, current) == Popular(articles)
  {
    forall k | 0 <= k < |articles| && articles[k].slug == current
      ensures Sidebar(articles, current) == Take(articles[..k] + articles[k + 1..], 3)
    {
      WithoutSlugRemovesOne(articles, current, k);
    }
    if !HasSlug(articles, current) {
      WithoutAbsentSlug(articles, current);
    }
  }

  /** truncateText of the article page: a missing or empty text gives "". */
  function TruncateOrEmpty(text: Option<string>, maxLength: nat): (r: string)
    ensures text.None? ==> r == []
    ensures text.Some? ==> r == Truncate(text.value, maxLength)
  {
    if text.None? || text.value == [] then [] else Truncate(text.value, maxLength)
  }

  // ---------------------------------------------------------------- table of contents

  /** "<h2" at position i, the letter in either case. */
  predicate OpensH2At(s: string, i: nat)
  {
    i + 3 <= |s| && s[i] == '<' && (s[i + 1] == 'h' || s[i + 1] == 'H') && s[i + 2] == '2'
  }

  /** "</h2>" at position j, the letter in either case. */
  predicate ClosesH2At(s: string, j: nat)
  {
    j + 5 <= |s| && s[j] == '<' && s[j + 1] == '/' && (s[j + 2] == 'h' || s[j + 2] == 'H')
    && s[j + 3] == '2' && s[j + 4] == '>'
  }

  /** A heading's text at `start`: no '<' in it, and the closing tag right after it. */
  predicate HeadingTextAt(s: string, text: string, start: nat)
  {
    text != [] && '<' !in text && start + |text| <= |s| && s[start..start + |text|] == text
    && ClosesH2At(s, start + |text|)
  }

  datatype H2Match = H2Match(text: string, start: nat, end: nat)

  /** The first position at or after `from` holding `c`. */
  function FindFrom(s: string, from: nat, c: char): (r: Option<nat>)
    ensures r.Some? ==> from <= r.value < |s| && s[r.value] == c
    ensures r.Some? ==> forall j | from <= j < r.value :: s[j] != c
    ensures r.None? ==> forall j | from <= j < |s| :: s[j] != c
    decreases |s| - from
  {
    if from >= |s| then None
    else if s[from] == c then Some(from)
    else FindFrom(s, from + 1, c)
  }

  /** /<h2[^>]*>([^<]+)<\/h2>/i tried at position i: the opening tag runs to the first '>', the text to the first '<'. */
  function MatchH2At(s: string, i: nat): (r: Option<H2Match>)
    ensures r.Some? ==> i < r.value.start && r.value.end == r.value.start + |r.value.text| + 5
    ensures r.Some? ==> HeadingTextAt(s, r.value.text, r.value.start)
  {
    if !OpensH2At(s, i) then None
    else
      match FindFrom(s, i + 3, '>')
      case None => None
      case Some(gt) =>
        match FindFrom(s, gt + 1, '<')
        case None => None
        case Some(close) =>
          if close == gt + 1 || !ClosesH2At(s, close) then None
          else
            var text := s[gt + 1..close];
            assert forall k | 0 <= k < |text| :: text[k] == s[gt + 1 + k];
            Some(H2Match(text, gt + 1, close + 5))
  }

  /** content.match(/<h2[^>]*>([^<]+)<\/h2>/gi), as the texts of the headings, scanning from position i. */
  function H2Headings(s: string, i: nat): (r: seq<string>)
    ensures forall k | 0 <= k < |r| :: r[k] != [] && '<' !in r[k]
    decreases |s| - i
  {
    if i >= |s| then []
    else
      match MatchH2At(s, i)
      case Some(m) => [m.text] + H2Headings(s, m.end)
      case None => H2Headings(s, i + 1)
  }

  /** The first position holding `c`, found by the search. */
  lemma FindFirst(s: string, from: nat, v: nat, c: char)
    requires from <= v < |s| && s[v] == c
    requires forall j | from <= j < v :: s[j] != c
    ensures FindFrom(s, from, c) == Some(v)
  {
  }

  /** An opening tag whose first '>' and next '<' frame a non-empty text before a closing tag is a match. */
  lemma MatchOfParts(s: string, i: nat, gt: nat, close: nat)
    requires ClosesH2At(s, close) && OpensH2At(s, i) && i + 3 <= gt < close
    requires s[gt] == '>' && forall j | i + 3 <= j < gt :: s[j] != '>'
    requires gt + 1 < close && forall j | gt + 1 <= j < close :: s[j] != '<'
    ensures MatchH2At(s, i) == Some(H2Match(s[gt + 1..close], gt + 1, close + 5))
  {
    FindFirst(s, i + 3, gt, '>');
    FindFirst(s, gt + 1, close, '<');
  }

  /** The scan takes a match whole and goes on after it. */
  lemma HeadingsAtMatch(s: string, i: nat, m: H2Match)
    requires i < |s| && MatchH2At(s, i) == Some(m)
    ensures H2Headings(s, i) == [m.text] + H2Headings(s, m.end)
  {
  }

  /**
   * A heading is found wherever one stands: an h2 opened at i whose first '>' is at gt, followed
   * by a non-empty text without '<' up to a closing tag at close, is the next heading of the scan
   * from i, and the scan goes on after the closing tag.
   */
  lemma HeadingFoundAt(s: string, i: nat, gt: nat, close: nat)
    requires ClosesH2At(s, close) && OpensH2At(s, i) && i + 3 <= gt < close
    requires s[gt] == '>' && forall j | i + 3 <= j < gt :: s[j] != '>'
    requires gt + 1 < close && forall j | gt + 1 <= j < close :: s[j] != '<'
    ensures H2Headings(s, i) == [s[gt + 1..close]] + H2Headings(s, close + 5)
  {
    MatchOfParts(s, i, gt, close);
    HeadingsAtMatch(s, i, H2Match(s[gt + 1..close], gt + 1, close + 5));
  }

  /** Nothing is matched across a stretch holding no '<': the scan passes over it. */
  lemma {:induction false} PlainSkipped(s: string, i: nat, j: nat)
    requires i <= j <= |s| && forall k | i <= k < j :: s[k] != '<'
    ensures H2Headings(s, i) == H2Headings(s, j)
    decreases j - i
  {
    if i < j {
      PlainSkipped(s, i + 1, j);
    }
  }

  /** A text holding no '<' has no heading. */
  lemma NoTagNoHeading(s: string)
    requires '<' !in s
    ensures H2Headings(s, 0) == []
  {
    PlainSkipped(s, 0, |s|);
  }

  /** The id the page gives its k-th h2 (from 0). */
  function SectionId(k: nat): string
  {
    "section-" + NatToString(k + 1)
  }

  /** Distinct headings get distinct ids, so every link has one target. */
  lemma SectionIdsDistinct(j: nat, k: nat)
    requires j != k
    ensures SectionId(j) != SectionId(k)
  {
    if SectionId(j) == SectionId(k) {
      assert SectionId(j)[8..] == NatToString(j + 1);
      assert SectionId(k)[8..] == NatToString(k + 1);
      NatToStringInjective(j + 1, k + 1);
    }
  }

  /** addHeadingIds: the ids of the first n headings, in order. */
  function HeadingIds(n: nat): (r: seq<string>)
    ensures |r| == n && forall k | 0 <= k < n :: r[k] == SectionId(k)
  {
    seq(n, k requires 0 <= k < n => SectionId(k))
  }

  datatype TocLink = TocLink(text: string, href: string)

  /** generateTableOfContents: nothing below 500 words or with fewer than two headings; otherwise link k goes to section k + 1. */
  function TableOfContents(content: string): (r: Option<seq<TocLink>>)
    ensures r.Some? <==> WordCount(content) >= 500 && |H2Headings(content, 0)| >= 2
    ensures r.Some? ==> |r.value| == |H2Headings(content, 0)|
    ensures r.Some? ==> forall k | 0 <= k < |r.value| ::
      r.value[k].text == H2Headings(content, 0)[k] && r.value[k].href == "#" + HeadingIds(|r.value|)[k]
  {
    if WordCount(content) < 500 then None
    else
      var headings := H2Headings(content, 0);
      if |headings| < 2 then None
      else Some(seq(|headings|, k requires 0 <= k < |headings| => TocLink(headings[k], "#" + SectionId(k))))
  }
}
