/**
 * The city and theme landing pages: the slug read from the path, the request
 * made for it and the choice between the page and the 404 shell, the icon
 * labels and titles of a theme page, and the plate form's submit gate.
 *
 * The plate input of both pages uses Plate.SlicedFormat.
 */
module Landing {
  import opened Wrappers
  import opened Text
  import opened Plate
  import opened ArticleStore

  // ---------------------------------------------------------------- slugs

  const CityPrefix: string := "/reprise-auto-"

  /** No character that `.` of a regular expression refuses. */
  predicate SingleLine(s: string)
  {
    forall k | 0 <= k < |s| :: !IsLineTerminator(s[k])
  }

  /** getCitySlug: path.match(/^\/reprise-auto-(.+)$/), the captured rest of the path. */
  function CitySlug(path: string): (r: Option<string>)
    ensures r.Some? <==> StartsWith(path, CityPrefix) && |path| > |CityPrefix| && SingleLine(path[|CityPrefix|..])
    ensures r.Some? ==> r.value != [] && path == CityPrefix + r.value
  {
    if StartsWith(path, CityPrefix) && |path| > |CityPrefix| && SingleLine(path[|CityPrefix|..])
    then Some(path[|CityPrefix|..])
    else None
  }

  /** The path of a city's page gives back that city's slug. */
  lemma CitySlugOfPath(slug: string)
    requires slug != [] && SingleLine(slug)
    ensures CitySlug(CityPrefix + slug) == Some(slug)
  {
    var path := CityPrefix + slug;
    assert path[..|CityPrefix|] == CityPrefix;
    assert path[|CityPrefix|..] == slug;
  }

  /** getThemeSlug: path.substring(1), the path without its leading character. */
  function ThemeSlug(path: string): (r: string)
    ensures |r| == Max(|path| - 1, 0)
    ensures path != [] ==> path == [path[0]] + r
  {
    if path == [] then [] else path[1..]
  }

  /** The path of a theme's page gives back that theme's slug. */
  lemma ThemeSlugOfPath(slug: string)
    ensures ThemeSlug("/" + slug) == slug
  {
    assert ("/" + slug)[1..] == slug;
  }

  // ---------------------------------------------------------------- loading

  /**
   * What the fetch comes back with: a thrown error (network or JSON), a
   * response that is not ok, or the parsed body (None for a null body).
   */
  datatype Answer<T> = Threw | NotOk | Ok(body: Option<T>)

  /** A city as the page reads it: only its name decides anything. */
  datatype City = City(nom: Field, codePostal: string, departement: string, region: string)

  /** A theme as the page reads it. */
  datatype Theme = Theme(slug: string, title: string, h1: Field, subtitle: string, metaDescription: string)

  /** The outcome of a load: the request made, if any, and the page shown. */
  datatype Load<T> = Load(request: Option<string>, shown: Option<T>)
  {
    predicate Shows404() { shown.None? }
  }

  /** The record in the answer, when the answer is a non-null body of an ok response. */
  function Received<T>(answer: Answer<T>): Option<T>
  {
    if answer.Ok? then answer.body else None
  }

  /**
   * loadCityData: no slug, no request and the 404 shell; otherwise the city is
   * requested and shown only when the answer is ok and names the city.
   */
  function LoadCity(path: string, answer: Answer<City>): (r: Load<City>)
    ensures CitySlug(path).None? ==> r.request.None? && r.Shows404()
    ensures CitySlug(path).Some? ==> r.request == Some("/api/villes/" + CitySlug(path).value)
    ensures r.Shows404() <==> CitySlug(path).None? || Received(answer).None? || !Received(answer).value.nom.Truthy()
    ensures !r.Shows404() ==> r.shown == Received(answer)
  {
    match CitySlug(path)
    case None => Load(None, None)
    case Some(slug) =>
      var request := Some("/api/villes/" + slug);
      match answer
      case Threw => Load(request, None)
      case NotOk => Load(request, None)
      case Ok(body) =>
        if body.None? || !body.value.nom.Truthy() then Load(request, None)
        else Load(request, body)
  }

  /**
   * loadThemeData: an empty slug, no request and the 404 shell; otherwise the
   * theme is requested and shown only when the answer is ok and has an h1.
   */
  function LoadTheme(path: string, answer: Answer<Theme>): (r: Load<Theme>)
    ensures ThemeSlug(path) == [] ==> r.request.None? && r.Shows404()
    ensures ThemeSlug(path) != [] ==> r.request == Some("/api/themes/" + ThemeSlug(path))
    ensures r.Shows404() <==> ThemeSlug(path) == [] || Received(answer).None? || !Received(answer).value.h1.Truthy()
    ensures !r.Shows404() ==> r.shown == Received(answer)
  {
    var slug := ThemeSlug(path);
    if slug == [] then Load(None, None)
    else
      var request := Some("/api/themes/" + slug);
      match answer
      case Threw => Load(request, None)
      case NotOk => Load(request, None)
      case Ok(body) =>
        if body.None? || !body.value.h1.Truthy() then Load(request, None)
        else Load(request, body)
  }

  /** A city's own page, answered with a named city, shows that city. */
  lemma CityPageShowsCity(slug: string, c: City)
    requires slug != [] && SingleLine(slug) && c.nom.Truthy()
    ensures LoadCity(CityPrefix + slug, Ok(Some(c))) == Load(Some("/api/villes/" + slug), Some(c))
  {
    CitySlugOfPath(slug);
  }

  /** The site root has no theme: nothing is requested and the 404 shell is shown. */
  lemma RootIsNoTheme(answer: Answer<Theme>)
    ensures LoadTheme("/", answer) == Load(None, None)
  {
    assert ThemeSlug("/") == [];
  }

  // ---------------------------------------------------------------- theme content

  /**
   * getIconDisplay: the label of a known icon, the icon's own name otherwise.
   * The table is split in four parts, each falling through to the next and
   * the last to the name itself; its keys are distinct, so this is one lookup.
   */
  function IconDisplay(icon: string): (r: string)
    ensures r != [] || icon == []
  {
    IconTable1(icon)
  }

  /** Part 1 of the icon table. */
  function IconTable1(icon: string): (r: string)
    ensures r != [] || icon == []
  {
    match icon
    case "24h" => "24h"
    case "48h" => "48h"
    case "2min" => "2'"
    case "7j" => "7j"
    case "instant" => "!"
    case "fast" => "fast"
    case "simple" => "1-2-3"
    case "secure" => "lock"
    case "no-ct" => "CT"
    case "no-service" => "wrench"
    case "all" => "all"
    case "broken" => "X"
    case "truck" => "truck"
    case "money" => "EUR"
    case "crash" => "!"
    case "estimate" => "calc"
    case "no-wheel" => "wheel"
    case "engine" => "motor"
    case "docs" => "doc"
    case "help" => "?"
    case "case" => "file"
    case "cash" => "EUR"
    case "no-check" => "X"
    case "trust" => "check"
    case "full" => "100%"
    case "check" => "CHQ"
    case "choice" => "opt"
    case "wire" => "wire"
    case "trace" => "trace"
    case _ => IconTable2(icon)
  }

  /** Part 2 of the icon table. */
  function IconTable2(icon: string): (r: string)
    ensures r != [] || icon == []
  {
    match icon
    case "all-brands" => "AB"
    case "all-models" => "AM"
    case "fair" => "fair"
    case "old" => "+10"
    case "value" => "EUR"
    case "km" => "km"
    case "honest" => "fair"
    case "no-judge" => "ok"
    case "van" => "van"
    case "pro" => "PRO"
    case "suv" => "SUV"
    case "demand" => "up"
    case "price" => "EUR"
    case "sedan" => "car"
    case "comfort" => "star"
    case "city" => "city"
    case "popular" => "star"
    case "family" => "fam"
    case "space" => "7+"
    case "diesel" => "D"
    case "all-ages" => "all"
    case "gas" => "E"
    case "eco" => "eco"
    case "hybrid" => "HEV"
    case "battery" => "bat"
    case "electric" => "EV"
    case "future" => "up"
    case "gpl" => "GPL"
    case "niche" => "N"
    case _ => IconTable3(icon)
  }

  /** Part 3 of the icon table. */
  function IconTable3(icon: string): (r: string)
    ensures r != [] || icon == []
  {
    match icon
    case "renault" => "R"
    case "peugeot" => "P"
    case "citroen" => "C"
    case "vw" => "VW"
    case "german" => "DE"
    case "toyota" => "T"
    case "reliable" => "rel"
    case "ford" => "F"
    case "american" => "US"
    case "sporty" => "sport"
    case "opel" => "O"
    case "psa" => "PSA"
    case "audi" => "A"
    case "premium" => "star"
    case "bmw" => "BMW"
    case "sport" => "sport"
    case "cote" => "up"
    case "mercedes" => "MB"
    case "luxury" => "lux"
    case "nissan" => "N"
    case "fiat" => "F"
    case "style" => "style"
    case "dacia" => "D"
    case "hyundai" => "H"
    case "warranty" => "5y"
    case "modern" => "new"
    case "kia" => "K"
    case "design" => "des"
    case "no-visit" => "X"
    case _ => IconTable4(icon)
  }

  /** Part 4 of the icon table. */
  function IconTable4(icon: string): (r: string)
    ensures r != [] || icon == []
  {
    match icon
    case "no-nego" => "fix"
    case "no-scam" => "safe"
    case "legal" => "legal"
    case "experience" => "exp"
    case "loa" => "LOA"
    case "option" => "opt"
    case "advice" => "tip"
    case "credit" => "cred"
    case "solution" => "sol"
    case "support" => "help"
    case "patience" => "time"
    case "discrete" => "priv"
    case "flexible" => "flex"
    case "worry-free" => "zen"
    case "world" => "world"
    case "admin" => "admin"
    case "no-wait" => "now"
    case "direct" => "dir"
    case "more" => "+20%"
    case "no-buy" => "free"
    case "compare" => "vs"
    case "transparent" => "clear"
    case "best" => "#1"
    case "save" => "save"
    case "time" => "time"
    case "easy" => "easy"
    case "guarantee" => "ok"
    case "papers" => "doc"
    case _ => icon
  }

  /** A known icon shows its label; an icon the table lacks shows its own name. */
  lemma IconExamples()
    ensures IconDisplay("money") == "EUR" && IconDisplay("2min") == "2'"
    ensures IconDisplay("rocket") == "rocket"
  {
  }

  /** document.title of a theme page. */
  function DocumentTitle(title: string): (r: string)
    ensures |r| == |title| + 10 && r[..|title|] == title && r[|title|..] == " | LUNICAR"
  {
    title + " | LUNICAR"
  }

  const CtaSuffix: string := " - Estimation gratuite"
  const CtaFallback: string := "Profitez de notre service maintenant"

  /** The CTA title: the h1 followed by the offer when the h1 speaks of "Reprise" or "Rachat", else the fixed invitation. */
  function CtaTitle(h1: string): (r: string)
    ensures Contains(h1, "Reprise") || Contains(h1, "Rachat") ==> r == h1 + CtaSuffix
    ensures !(Contains(h1, "Reprise") || Contains(h1, "Rachat")) ==> r == CtaFallback
  {
    if Contains(h1, "Reprise") || Contains(h1, "Rachat") then h1 + CtaSuffix else CtaFallback
  }

  /** A CTA that repeats the h1 always names the trade-in or the purchase. */
  lemma {:induction false} CtaTitleMentionsOffer(h1: string)
    requires CtaTitle(h1) != CtaFallback
    ensures Contains(CtaTitle(h1), "Reprise") || Contains(CtaTitle(h1), "Rachat")
  {
    var r := CtaTitle(h1);
    assert r == h1 + CtaSuffix;
    if Contains(h1, "Reprise") {
      ContainsInPrefix(h1, CtaSuffix, "Reprise");
    } else {
      ContainsInPrefix(h1, CtaSuffix, "Rachat");
    }
  }

  /** What occurs in a string still occurs once something is appended. */
  lemma ContainsInPrefix(s: string, t: string, sub: string)
    requires Contains(s, sub)
    ensures Contains(s + t, sub)
  {
    var i :| 0 <= i <= |s| - |sub| && OccursAt(s, sub, i);
    assert (s + t)[i..i + |sub|] == s[i..i + |sub|];
    assert OccursAt(s + t, sub, i);
  }

  // ---------------------------------------------------------------- plate form

  /** The submit handler: the submission is stopped when fewer than seven characters remain once dashes are removed. */
  predicate SubmitPrevented(inputValue: string)
  {
    |RemoveDashes(inputValue)| < 7
  }

  /** On a formatted input, submission goes through exactly when at least seven plate characters were typed. */
  lemma {:induction false} SubmitGateOnFormatted(raw: string)
    ensures SubmitPrevented(SlicedFormat(raw)) <==> |Clean(raw)| < 7
  {
    SlicedFormatUndashes(raw);
  }
}
