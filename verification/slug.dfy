/**
 * The URL slug the server derives from an article title, and the category slug
 * derived from a category name: lower-case, decompose and drop the combining
 * accents, then (for the article slug) turn every run of characters outside
 * a-z/0-9 into one dash and drop a dash at either end.
 *
 * Case mapping and canonical decomposition are modelled for ASCII and Latin-1;
 * other characters pass through unchanged.
 */
module Slug {
  import opened Text

  /** A combining diacritical mark, U+0300 to U+036F. */
  predicate IsCombiningMark(c: char) { '\U{300}' <= c <= '\U{36F}' }

  /** The base letter of a lower-case Latin-1 letter with a canonical decomposition; other characters unchanged. */
  function BaseLetter(c: char): (b: char)
    ensures c as int < 0xE0 ==> b == c
    ensures IsLower(b) || b == c
  {
    if '\U{E0}' <= c <= '\U{E5}' then 'a'
    else if c == '\U{E7}' then 'c'
    else if '\U{E8}' <= c <= '\U{EB}' then 'e'
    else if '\U{EC}' <= c <= '\U{EF}' then 'i'
    else if c == '\U{F1}' then 'n'
    else if '\U{F2}' <= c <= '\U{F6}' then 'o'
    else if '\U{F9}' <= c <= '\U{FC}' then 'u'
    else if c == '\U{FD}' || c == '\U{FF}' then 'y'
    else c
  }

  /** What one character becomes under toLowerCase, NFD and the removal of U+0300-U+036F. */
  function FoldChar(c: char): (r: string)
    ensures |r| <= 1
    ensures IsUpper(c) ==> r == [ToLower(c)]
    ensures IsLower(c) || IsDigit(c) ==> r == [c]
  {
    if IsCombiningMark(c) then [] else [BaseLetter(ToLower(c))]
  }

  function FoldString(s: string): (r: string)
    ensures |r| <= |s|
  {
    if s == [] then [] else FoldChar(s[0]) + FoldString(s[1..])
  }

  /** On ASCII text the fold is plain lower-casing. */
  lemma {:induction false} FoldAscii(s: string)
    requires forall i | 0 <= i < |s| :: s[i] as int < 128
    ensures FoldString(s) == LowerString(s)
  {
    if s != [] {
      FoldAscii(s[1..]);
      assert LowerString(s) == [ToLower(s[0])] + LowerString(s[1..]);
    }
  }

  /** The characters a slug keeps: a-z and 0-9. */
  predicate IsSlugChar(c: char) { IsLower(c) || IsDigit(c) }

  predicate NoDoubleDash(s: string)
  {
    forall i | 0 <= i < |s| - 1 :: !(s[i] == '-' && s[i + 1] == '-')
  }

  predicate SlugChars(s: string) { forall i | 0 <= i < |s| :: IsSlugChar(s[i]) || s[i] == '-' }

  /** The shape every generated slug has. */
  predicate IsSlug(s: string)
  {
    SlugChars(s) && NoDoubleDash(s) && (s == [] || (s[0] != '-' && s[|s| - 1] != '-'))
  }

  /** Drops the maximal prefix of characters outside a-z/0-9. */
  function SkipRun(s: string): (r: string)
    ensures |r| <= |s| && r == s[|s| - |r|..]
    ensures r == [] || IsSlugChar(r[0])
    ensures forall i | 0 <= i < |s| - |r| :: !IsSlugChar(s[i])
  {
    if s == [] || IsSlugChar(s[0]) then s else SkipRun(s[1..])
  }

  /** replace(/[^a-z0-9]+/g, '-') */
  function Hyphenate(s: string): (r: string)
    ensures SlugChars(r) && NoDoubleDash(r)
    ensures r != [] && r[0] == '-' ==> s != [] && !IsSlugChar(s[0])
    ensures r == [] <==> s == []
    decreases |s|
  {
    if s == [] then []
    else if IsSlugChar(s[0]) then
      var rest := Hyphenate(s[1..]);
      ConsSlug([s[0]], rest);
      [s[0]] + rest
    else
      var rest := Hyphenate(SkipRun(s));
      ConsSlug("-", rest);
      "-" + rest
  }

  /** Putting one character in front of a well-formed run keeps it well formed, unless it makes a double dash. */
  lemma ConsSlug(head: string, rest: string)
    requires |head| == 1 && (IsSlugChar(head[0]) || head[0] == '-')
    requires SlugChars(rest) && NoDoubleDash(rest)
    requires head[0] == '-' ==> rest == [] || rest[0] != '-'
    ensures SlugChars(head + rest) && NoDoubleDash(head + rest)
  {
    var r := head + rest;
    forall i | 0 <= i < |r| - 1 ensures !(r[i] == '-' && r[i + 1] == '-') {
      if i > 0 {
        assert r[i] == rest[i - 1] && r[i + 1] == rest[i];
      }
    }
  }

  /** replace(/(^-|-$)/g, '') */
  function TrimDashes(h: string): (r: string)
  {
    var a := if h != [] && h[0] == '-' then h[1..] else h;
    if a != [] && a[|a| - 1] == '-' then a[..|a| - 1] else a
  }

  /** The article slug of a title. */
  function Slugify(title: string): (r: string)
    ensures IsSlug(r)
    ensures |r| <= |title|
  {
    var h := Hyphenate(FoldString(title));
    TrimDashesShape(h);
    HyphenateLength(FoldString(title));
    TrimDashes(h)
  }

  lemma TrimDashesShape(h: string)
    requires SlugChars(h) && NoDoubleDash(h)
    ensures IsSlug(TrimDashes(h))
    ensures |TrimDashes(h)| <= |h|
  {
    var a := if h != [] && h[0] == '-' then h[1..] else h;
    assert SlugChars(a) && NoDoubleDash(a) by {
      if h != [] && h[0] == '-' {
        assert forall i | 0 <= i < |a| :: a[i] == h[i + 1];
      }
    }
    assert a != [] ==> a[0] != '-' by {
      if h != [] && h[0] == '-' && a != [] { assert a[0] == h[1]; }
    }
    if a != [] && a[|a| - 1] == '-' {
      var b := a[..|a| - 1];
      assert forall i | 0 <= i < |b| :: b[i] == a[i];
      if b != [] {
        assert b[|b| - 1] == a[|a| - 2];
      }
    }
  }

  /** Hyphenation never lengthens the text: each run of dropped characters becomes one dash. */
  lemma {:induction false} HyphenateLength(s: string)
    ensures |Hyphenate(s)| <= |s|
    decreases |s|
  {
    if s != [] {
      if IsSlugChar(s[0]) {
        HyphenateLength(s[1..]);
      } else {
        HyphenateLength(SkipRun(s));
      }
    }
  }

  /** The category slug: the name lower-cased with its accents dropped, nothing else touched. */
  function CategorySlug(name: string): (r: string)
    ensures |r| <= |name|
  {
    FoldString(name)
  }

  /** Hyphenation keeps exactly the a-z/0-9 characters, in order, between its dashes. */
  lemma {:induction false} HyphenateKeepsSlugChars(s: string)
    ensures RemoveDashes(Hyphenate(s)) == Filter(IsSlugChar, s)
    decreases |s|
  {
    if s != [] {
      if IsSlugChar(s[0]) {
        HyphenateKeepsSlugChars(s[1..]);
        KeptHead(s);
      } else {
        HyphenateKeepsSlugChars(SkipRun(s));
        DroppedRun(s);
      }
    }
  }

  /** A leading slug character is kept in front of what the rest keeps. */
  lemma KeptHead(s: string)
    requires s != [] && IsSlugChar(s[0])
    ensures RemoveDashes(Hyphenate(s)) == [s[0]] + RemoveDashes(Hyphenate(s[1..]))
    ensures Filter(IsSlugChar, s) == [s[0]] + Filter(IsSlugChar, s[1..])
  {
    RemoveDashesAppend([s[0]], Hyphenate(s[1..]));
  }

  /** A leading run of other characters becomes a dash, which keeps nothing. */
  lemma DroppedRun(s: string)
    requires s != [] && !IsSlugChar(s[0])
    ensures RemoveDashes(Hyphenate(s)) == RemoveDashes(Hyphenate(SkipRun(s)))
    ensures Filter(IsSlugChar, s) == Filter(IsSlugChar, SkipRun(s))
  {
    var rest := SkipRun(s);
    var skipped := s[..|s| - |rest|];
    RemoveDashesAppend("-", Hyphenate(rest));
    assert RemoveDashes("-") == [] by { assert "-"[1..] == []; }
    assert s == skipped + rest;
    FilterAppend(IsSlugChar, skipped, rest);
    FilterNone(skipped);
  }

  lemma {:induction false} FilterNone(s: string)
    requires forall i | 0 <= i < |s| :: !IsSlugChar(s[i])
    ensures Filter(IsSlugChar, s) == []
  {
    if s != [] {
      FilterNone(s[1..]);
    }
  }

  lemma TrimDashesKeepsContent(h: string)
    ensures RemoveDashes(TrimDashes(h)) == RemoveDashes(h)
  {
    var a := if h != [] && h[0] == '-' then h[1..] else h;
    assert RemoveDashes("-") == [] by { assert "-"[1..] == []; }
    if h != [] && h[0] == '-' {
      assert h == "-" + a;
      RemoveDashesAppend("-", a);
    }
    if a != [] && a[|a| - 1] == '-' {
      assert a == a[..|a| - 1] + "-";
      RemoveDashesAppend(a[..|a| - 1], "-");
    }
  }

  /** The slug keeps exactly the letters and digits of the folded title, in order: only dashes are added. */
  lemma SlugKeepsContent(title: string)
    ensures RemoveDashes(Slugify(title)) == Filter(IsSlugChar, FoldString(title))
  {
    TrimDashesKeepsContent(Hyphenate(FoldString(title)));
    HyphenateKeepsSlugChars(FoldString(title));
  }

  /** A slug is folded to itself. */
  lemma {:induction false} FoldSlugChars(s: string)
    requires SlugChars(s)
    ensures FoldString(s) == s
  {
    if s != [] {
      FoldSlugChars(s[1..]);
      assert [s[0]] + s[1..] == s;
    }
  }

  lemma TailShape(s: string)
    requires s != [] && SlugChars(s) && NoDoubleDash(s)
    ensures SlugChars(s[1..]) && NoDoubleDash(s[1..])
  {
    assert forall i | 0 <= i < |s| - 1 :: s[1..][i] == s[i + 1];
  }

  /** After a single dash comes a slug character (or nothing), so the run to skip is that dash alone. */
  lemma SkipOneDash(s: string)
    requires s != [] && s[0] == '-' && SlugChars(s) && NoDoubleDash(s)
    ensures SkipRun(s) == s[1..]
  {
    if |s| > 1 {
      assert s[1..][0] == s[1];
      assert s[1] != '-';
    }
  }

  /** A string of slug characters with no double dash hyphenates to itself. */
  lemma {:induction false} HyphenateSlugChars(s: string)
    requires SlugChars(s) && NoDoubleDash(s)
    ensures Hyphenate(s) == s
    decreases |s|
  {
    if s != [] {
      TailShape(s);
      if s[0] == '-' {
        SkipOneDash(s);
      }
      HyphenateSlugChars(s[1..]);
      assert s == [s[0]] + s[1..];
    }
  }

  /** Slugifying a slug gives it back, so a stored slug is a fixed point of slug generation. */
  lemma SlugifyIdempotent(title: string)
    ensures Slugify(Slugify(title)) == Slugify(title)
  {
    var s := Slugify(title);
    FoldSlugChars(s);
    HyphenateSlugChars(s);
  }
}
