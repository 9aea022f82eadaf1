/**
 * French licence plates, as the site checks and formats them in three places:
 * the validation endpoint of the server, `validatePlaque`/`formatPlaque` on the
 * home page, and the `formatPlaque` shared by the city and theme landing pages.
 *
 * A plate is first normalised to upper case with everything outside A-Z and
 * 0-9 removed. It is then accepted in the current format (two letters, three
 * digits, two letters) or in the legacy format (one to four digits, two or
 * three letters, two digits).
 */
module Plate {
  import opened Text

  predicate IsPlateChar(c: char) { IsUpper(c) || IsDigit(c) }

  predicate IsClean(s: string) { forall i | 0 <= i < |s| :: IsPlateChar(s[i]) }

  /** What one character contributes to `toUpperCase().replace(/[^A-Z0-9]/g, '')`. */
  function CleanChar(c: char): string
  {
    if IsPlateChar(ToUpper(c)) then [ToUpper(c)] else []
  }

  /** toUpperCase().replace(/[^A-Z0-9]/g, ''). */
  function Clean(s: string): (r: string)
    ensures |r| <= |s|
  {
    if s == [] then [] else CleanChar(s[0]) + Clean(s[1..])
  }

  /** Only upper-case letters and digits survive normalisation. */
  lemma {:induction false} CleanIsClean(s: string)
    ensures IsClean(Clean(s))
  {
    if s != [] {
      CleanIsClean(s[1..]);
      var r := Clean(s);
      assert r == CleanChar(s[0]) + Clean(s[1..]);
      forall i | 0 <= i < |r| ensures IsPlateChar(r[i]) {
        if i >= |CleanChar(s[0])| {
          assert r[i] == Clean(s[1..])[i - |CleanChar(s[0])|];
        }
      }
    }
  }

  lemma {:induction false} CleanAppend(a: string, b: string)
    ensures Clean(a + b) == Clean(a) + Clean(b)
  {
    if a == [] {
      assert a + b == b;
    } else {
      var ab := a + b;
      assert ab[0] == a[0] && ab[1..] == a[1..] + b;
      CleanAppend(a[1..], b);
      calc {
        Clean(ab);
        CleanChar(a[0]) + Clean(a[1..] + b);
        CleanChar(a[0]) + (Clean(a[1..]) + Clean(b));
        (CleanChar(a[0]) + Clean(a[1..])) + Clean(b);
      }
    }
  }

  /** A cleaned string is left as it is. */
  lemma {:induction false} CleanFixesClean(s: string)
    requires IsClean(s)
    ensures Clean(s) == s
  {
    if s != [] {
      CleanFixesClean(s[1..]);
      assert [s[0]] + s[1..] == s;
    }
  }

  lemma CleanIdempotent(s: string)
    ensures Clean(Clean(s)) == Clean(s)
  {
    CleanIsClean(s);
    CleanFixesClean(Clean(s));
  }

  /** Dashes typed or inserted by the formatters never reach the normalised plate. */
  lemma {:induction false} CleanIgnoresDashes(s: string)
    ensures Clean(RemoveDashes(s)) == Clean(s)
  {
    if s != [] {
      CleanIgnoresDashes(s[1..]);
      var head := if s[0] == '-' then [] else [s[0]];
      CleanAppend(head, RemoveDashes(s[1..]));
      assert head != [] ==> Clean(head) == CleanChar(s[0]) + Clean([]);
    }
  }

  predicate AllLetters(s: string) { forall i | 0 <= i < |s| :: IsUpper(s[i]) }

  predicate AllDigits(s: string) { forall i | 0 <= i < |s| :: IsDigit(s[i]) }

  /** /^[A-Z]{2}[0-9]{3}[A-Z]{2}$/ */
  predicate NewFormat(p: string)
  {
    |p| == 7 && AllLetters(p[..2]) && AllDigits(p[2..5]) && AllLetters(p[5..])
  }

  /** `p` reads as d digits, then l letters, then two digits. */
  predicate LegacySplit(p: string, d: int, l: int)
  {
    1 <= d <= 4 && 2 <= l <= 3 && |p| == d + l + 2
    && AllDigits(p[..d]) && AllLetters(p[d..d + l]) && AllDigits(p[d + l..])
  }

  /** /^[0-9]{1,4}[A-Z]{2,3}[0-9]{2}$/ */
  predicate LegacyFormat(p: string)
  {
    exists d, l | 1 <= d <= 4 && 2 <= l <= 3 :: LegacySplit(p, d, l)
  }

  /** A run-length reading of the legacy pattern: the leading digits, the letters after them, then exactly two digits. */
  function DigitRun(s: string): (n: nat)
    ensures n <= |s| && AllDigits(s[..n]) && (n == |s| || !IsDigit(s[n]))
  {
    if s != [] && IsDigit(s[0]) then
      var n := 1 + DigitRun(s[1..]);
      assert s[..n] == [s[0]] + s[1..][..n - 1];
      n
    else 0
  }

  function LetterRun(s: string): (n: nat)
    ensures n <= |s| && AllLetters(s[..n]) && (n == |s| || !IsUpper(s[n]))
  {
    if s != [] && IsUpper(s[0]) then
      var n := 1 + LetterRun(s[1..]);
      assert s[..n] == [s[0]] + s[1..][..n - 1];
      n
    else 0
  }

  predicate LegacyByRuns(p: string)
  {
    var d := DigitRun(p);
    var l := LetterRun(p[d..]);
    1 <= d <= 4 && 2 <= l <= 3 && |p| == d + l + 2 && AllDigits(p[d + l..])
  }

  /** The regular expression and the run-length scan accept the same plates: the split of a legacy plate is forced. */
  lemma LegacyFormatByRuns(p: string)
    ensures LegacyFormat(p) <==> LegacyByRuns(p)
  {
    if LegacyFormat(p) {
      var d, l :| 1 <= d <= 4 && 2 <= l <= 3 && LegacySplit(p, d, l);
      SplitIsRuns(p, d, l);
    }
    if LegacyByRuns(p) {
      var d := DigitRun(p);
      var l := LetterRun(p[d..]);
      assert p[d..][..l] == p[d..d + l];
      assert LegacySplit(p, d, l);
    }
  }

  /** The split of a legacy plate is the one the run-length scan finds. */
  lemma SplitIsRuns(p: string, d: int, l: int)
    requires LegacySplit(p, d, l)
    ensures DigitRun(p) == d && LetterRun(p[d..]) == l
  {
    assert p[d..d + l][0] == p[d];
    RunLength(p, d);
    var q := p[d..];
    assert q[..l] == p[d..d + l];
    assert q[l] == p[d + l] == p[d + l..][0];
    RunLengthLetters(q, l);
  }

  /** A prefix of digits followed by a non-digit is exactly the digit run. */
  lemma RunLength(p: string, d: nat)
    requires d < |p| && AllDigits(p[..d]) && !IsDigit(p[d])
    ensures DigitRun(p) == d
  {
  }

  lemma RunLengthLetters(p: string, l: nat)
    requires l < |p| && AllLetters(p[..l]) && !IsUpper(p[l])
    ensures LetterRun(p) == l
  {
  }

  /** A plate in the current format starts with a letter, one in the legacy format with a digit. */
  lemma FirstCharOfFormats(p: string)
    ensures NewFormat(p) ==> IsUpper(p[0])
    ensures LegacyFormat(p) ==> IsDigit(p[0])
  {
    if NewFormat(p) {
      assert p[..2][0] == p[0];
    }
    if LegacyFormat(p) {
      var d, l :| 1 <= d <= 4 && 2 <= l <= 3 && LegacySplit(p, d, l);
      assert p[..d][0] == p[0];
    }
  }

  /** No plate is in both formats. */
  lemma FormatsDisjoint(p: string)
    ensures !(NewFormat(p) && LegacyFormat(p))
  {
    FirstCharOfFormats(p);
  }

  /** validatePlaque of the home page (also called by the trade-in wizard). */
  predicate ValidatePlaque(s: string): (ok: bool)
    ensures ok <==> NewFormat(Clean(s)) || LegacyByRuns(Clean(s))
    ensures ok ==> 5 <= |Clean(s)| <= 9
  {
    LegacyFormatByRuns(Clean(s));
    NewFormat(Clean(s)) || LegacyFormat(Clean(s))
  }

  datatype PlateFormat = Nouveau | Ancien | Invalide

  /** The JSON body of GET /api/valider-plaque/:plaque. */
  datatype PlateReport = PlateReport(valide: bool, plaque: string, format: PlateFormat)

  /** The validation endpoint: the normalised plate, whether it is valid, and which format it is in. */
  function CheckPlate(param: string): (r: PlateReport)
    ensures r.plaque == Clean(param)
    ensures r.valide <==> r.format != Invalide
    ensures r.format == Nouveau <==> NewFormat(r.plaque)
    ensures r.format == Ancien <==> LegacyFormat(r.plaque)
    ensures r.valide == ValidatePlaque(param)
  {
    var plaque := Clean(param);
    FormatsDisjoint(plaque);
    var valide := NewFormat(plaque) || LegacyFormat(plaque);
    PlateReport(valide, plaque,
      if NewFormat(plaque) then Nouveau else if LegacyFormat(plaque) then Ancien else Invalide)
  }

  /** '-' before the characters at positions 2 and 5, where present. */
  function WithDashes(c: string): string
  {
    if |c| <= 2 then c
    else if |c| <= 5 then c[..2] + "-" + c[2..]
    else c[..2] + "-" + c[2..5] + "-" + c[5..]
  }

  /** formatPlaque of the home page: dashes as for the current format up to seven characters, none beyond. */
  function TypedFormat(value: string): string
  {
    var c := Clean(value);
    if |c| <= 7 then WithDashes(c) else c
  }

  /** formatPlaque of the home page, as the loop that builds the display string. */
  method FormatAsTyped(value: string) returns (formatted: string)
    ensures formatted == TypedFormat(value)
  {
    var cleaned := Clean(value);
    if |cleaned| > 7 {
      return cleaned;
    }
    formatted := "";
    var i := 0;
    while i < |cleaned|
      invariant 0 <= i <= |cleaned|
      invariant formatted == WithDashes(cleaned[..i])
    {
      DashesStep(cleaned, i);
      if i == 2 || i == 5 {
        formatted := formatted + "-";
      }
      formatted := formatted + [cleaned[i]];
      i := i + 1;
    }
    assert cleaned[..i] == cleaned;
  }

  /** One more character extends the dashed form by that character, after a dash at positions 2 and 5. */
  lemma DashesStep(c: string, i: nat)
    requires i < |c| <= 7
    ensures WithDashes(c[..i + 1]) == WithDashes(c[..i]) + (if i == 2 || i == 5 then "-" else "") + [c[i]]
  {
    var p, q := c[..i], c[..i + 1];
    assert q == p + [c[i]];
    if i == 2 {
      assert q[..2] == p && q[2..] == [c[i]];
    } else if 2 < i < 5 {
      assert q[..2] == p[..2] && q[2..] == p[2..] + [c[i]];
    } else if i == 5 {
      assert q[..2] == p[..2] && q[2..5] == p[2..] && q[5..] == [c[i]];
    } else if i > 5 {
      assert q[..2] == p[..2] && q[2..5] == p[2..5] && q[5..] == p[5..] + [c[i]];
    }
  }

  /** Any slice of a clean string is clean, and both cleaning and removing dashes leave it as it is. */
  lemma CleanSlice(c: string, i: nat, j: nat)
    requires IsClean(c) && i <= j <= |c|
    ensures IsClean(c[i..j])
    ensures Clean(c[i..j]) == c[i..j] && RemoveDashes(c[i..j]) == c[i..j]
  {
    assert forall k | 0 <= k < j - i :: c[i..j][k] == c[i + k] && IsPlateChar(c[i + k]);
    CleanFixesClean(c[i..j]);
    RemoveDashesNone(c[i..j]);
  }

  lemma RemoveDashesDropsDash(a: string, b: string)
    ensures RemoveDashes(a + "-" + b) == RemoveDashes(a) + RemoveDashes(b)
  {
    var dash: string := "-";
    assert RemoveDashes(dash) == [] by { assert dash[1..] == []; }
    RemoveDashesAppend(a + dash, b);
    RemoveDashesAppend(a, dash);
  }

  lemma CleanDropsDash(a: string, b: string)
    ensures Clean(a + "-" + b) == Clean(a) + Clean(b)
  {
    var dash: string := "-";
    assert Clean(dash) == [] by { assert dash[1..] == []; }
    CleanAppend(a + dash, b);
    CleanAppend(a, dash);
  }

  /** Removing the dash, and cleaning, both undo "a-b". */
  lemma Undash3(a: string, b: string)
    ensures RemoveDashes(a + "-" + b) == RemoveDashes(a) + RemoveDashes(b)
    ensures Clean(a + "-" + b) == Clean(a) + Clean(b)
  {
    RemoveDashesDropsDash(a, b);
    CleanDropsDash(a, b);
  }

  /** Dashing a clean string is undone by removing the dashes, and by cleaning. */
  lemma RemoveDashesWithDashes(c: string)
    requires IsClean(c)
    ensures RemoveDashes(WithDashes(c)) == c
    ensures Clean(WithDashes(c)) == c
  {
    if |c| <= 2 {
      CleanSlice(c, 0, |c|);
      assert c[0..|c|] == c;
    } else if |c| <= 5 {
      UndashOne(c);
    } else {
      UndashTwo(c);
    }
  }

  lemma UndashOne(c: string)
    requires IsClean(c) && 2 < |c| <= 5
    ensures RemoveDashes(WithDashes(c)) == c
    ensures Clean(WithDashes(c)) == c
  {
    CleanSlice(c, 0, 2);
    CleanSlice(c, 2, |c|);
    assert c[..2] == c[0..2] && c[2..] == c[2..|c|];
    Undash3(c[..2], c[2..]);
    assert c[..2] + c[2..] == c;
  }

  lemma UndashTwo(c: string)
    requires IsClean(c) && |c| > 5
    ensures RemoveDashes(WithDashes(c)) == c
    ensures Clean(WithDashes(c)) == c
  {
    var a, m, b := c[..2], c[2..5], c[5..];
    assert a == c[0..2] && b == c[5..|c|];
    assert a + m + b == c;
    CleanSlice(c, 0, 2);
    CleanSlice(c, 2, 5);
    CleanSlice(c, 5, |c|);
    RemoveTwoDashes(a, m, b);
    CleanTwoDashes(a, m, b);
  }

  lemma RemoveTwoDashes(a: string, m: string, b: string)
    ensures RemoveDashes(a + "-" + m + "-" + b) == RemoveDashes(a) + RemoveDashes(m) + RemoveDashes(b)
  {
    RemoveDashesDropsDash(a + "-" + m, b);
    RemoveDashesDropsDash(a, m);
  }

  lemma CleanTwoDashes(a: string, m: string, b: string)
    ensures Clean(a + "-" + m + "-" + b) == Clean(a) + Clean(m) + Clean(b)
  {
    CleanDropsDash(a + "-" + m, b);
    CleanDropsDash(a, m);
  }

  /** Removing the dashes from the home page's display gives the normalised plate back. */
  lemma TypedFormatUndashes(value: string)
    ensures RemoveDashes(TypedFormat(value)) == Clean(value)
    ensures Clean(TypedFormat(value)) == Clean(value)
  {
    var c := Clean(value);
    CleanIsClean(value);
    if |c| <= 7 {
      RemoveDashesWithDashes(c);
    } else {
      CleanSlice(c, 0, |c|);
      assert c[0..|c|] == c;
      CleanIdempotent(value);
    }
  }

  /** Formatting the display string again leaves it unchanged. */
  lemma TypedFormatIdempotent(value: string)
    ensures TypedFormat(TypedFormat(value)) == TypedFormat(value)
  {
    TypedFormatUndashes(value);
  }

  /** formatPlaque of the city and theme pages: fixed slices, a dash after 2 and after 6 characters, cut at 9. */
  function SlicedFormat(raw: string): (r: string)
    ensures |r| <= 9
  {
    DashSlices(Clean(raw))
  }

  /** The slicing steps of the landing pages' formatter, on an already normalised plate. */
  function DashSlices(v0: string): string
  {
    var v1 := if |v0| > 2 then v0[..2] + "-" + v0[2..] else v0;
    var v2 := if |v1| > 6 then v1[..6] + "-" + v1[6..] else v1;
    if |v2| > 9 then v2[..9] else v2
  }

  /** After the first dash, the first six characters hold the second dash's position. */
  lemma FirstDashSlices(v0: string)
    requires |v0| > 5
    ensures (v0[..2] + "-" + v0[2..])[..6] == v0[..2] + "-" + v0[2..5]
    ensures (v0[..2] + "-" + v0[2..])[6..] == v0[5..]
  {
  }

  lemma DashSlicesUpToSeven(v0: string)
    requires 5 < |v0| <= 7
    ensures DashSlices(v0) == WithDashes(v0)
  {
    FirstDashSlices(v0);
  }

  lemma DashSlicesBeyondSeven(v0: string)
    requires |v0| > 7
    ensures DashSlices(v0) == WithDashes(v0[..7])
  {
    FirstDashSlices(v0);
    var t := v0[..7];
    var v1 := v0[..2] + "-" + v0[2..];
    var v2 := v1[..6] + "-" + v1[6..];
    assert v2[..9] == t[..2] + "-" + t[2..5] + "-" + t[5..];
  }

  lemma DashSlicesIsDashedPrefix(v0: string)
    ensures DashSlices(v0) == WithDashes(Take(v0, 7))
  {
    if 5 < |v0| <= 7 {
      DashSlicesUpToSeven(v0);
    } else if |v0| > 7 {
      DashSlicesBeyondSeven(v0);
    }
  }

  /** The sliced formatter shows the first seven plate characters, dashed as the current format. */
  lemma SlicedIsDashedPrefix(raw: string)
    ensures SlicedFormat(raw) == WithDashes(Take(Clean(raw), 7))
  {
    DashSlicesIsDashedPrefix(Clean(raw));
  }

  /** The first seven characters of a normalised plate are clean. */
  lemma ShownPrefixIsClean(raw: string)
    ensures IsClean(Take(Clean(raw), 7))
  {
    var c := Clean(raw);
    CleanIsClean(raw);
    CleanSlice(c, 0, |Take(c, 7)|);
    assert Take(c, 7) == c[0..|Take(c, 7)|];
  }

  /** Formatting the city/theme display again leaves it unchanged. */
  lemma SlicedFormatIdempotent(raw: string)
    ensures SlicedFormat(SlicedFormat(raw)) == SlicedFormat(raw)
  {
    var t := Take(Clean(raw), 7);
    var shown := SlicedFormat(raw);
    SlicedIsDashedPrefix(raw);
    ShownPrefixIsClean(raw);
    RemoveDashesWithDashes(t);
    assert Clean(shown) == t;
    SlicedIsDashedPrefix(shown);
    assert Take(t, 7) == t;
  }

  /** Removing the dashes from the city/theme display gives the first seven plate characters. */
  lemma SlicedFormatUndashes(raw: string)
    ensures RemoveDashes(SlicedFormat(raw)) == Take(Clean(raw), 7)
  {
    SlicedIsDashedPrefix(raw);
    ShownPrefixIsClean(raw);
    RemoveDashesWithDashes(Take(Clean(raw), 7));
  }

  /** Up to seven plate characters, the home page and the landing pages display the same string. */
  lemma FormattersAgree(raw: string)
    requires |Clean(raw)| <= 7
    ensures TypedFormat(raw) == SlicedFormat(raw)
  {
    SlicedIsDashedPrefix(raw);
  }

  datatype Mark = Unmarked | MarkedValid | MarkedInvalid

  /** The plate input of the home page after an input event: what it displays and which class it carries. */
  datatype InputView = InputView(shown: string, mark: Mark)

  function OnHomeInput(typed: string): (v: InputView)
    ensures v.shown == TypedFormat(typed)
    ensures v.mark == Unmarked <==> |Clean(typed)| < 7
    ensures v.mark == MarkedValid <==> |Clean(typed)| >= 7 && ValidatePlaque(typed)
    ensures v.mark == MarkedInvalid <==> |Clean(typed)| >= 7 && !ValidatePlaque(typed)
  {
    var formatted := TypedFormat(typed);
    var cleaned := RemoveDashes(formatted);
    TypedFormatUndashes(typed);
    CleanIdempotent(typed);
    InputView(formatted,
      if |cleaned| >= 7 then (if ValidatePlaque(cleaned) then MarkedValid else MarkedInvalid) else Unmarked)
  }

  /** Submitting the home page form: go to the wizard with the typed plate, or mark the input invalid. */
  datatype HomeSubmit = GoToReprise(plaque: string) | RejectPlate

  function OnHomeSubmit(inputValue: string): (r: HomeSubmit)
    ensures r.GoToReprise? <==> ValidatePlaque(inputValue)
    ensures r.GoToReprise? ==> r.plaque == inputValue
  {
    var plaque := RemoveDashes(inputValue);
    CleanIgnoresDashes(inputValue);
    if ValidatePlaque(plaque) then GoToReprise(inputValue) else RejectPlate
  }
}

/** Concrete plates run through the model: the examples of the design notes and the cases where
    the site's three plate routines part ways. */
module PlateExamples {
  import opened Text
  import opened Plate

  /** The report depends on the input only through its normalised form. */
  lemma ReportOfNormalised(raw: string, p: string)
    requires Clean(raw) == p
    ensures CheckPlate(raw) == CheckPlate(p)
  {
    CleanIdempotent(raw);
  }

  lemma CurrentExampleNormalises()
    ensures Clean("AB-123-CD") == "AB123CD"
  {
    assert WithDashes("AB123CD") == "AB-123-CD";
    RemoveDashesWithDashes("AB123CD");
  }

  lemma CurrentExampleIsClean()
    ensures Clean("AB123CD") == "AB123CD"
  {
    CleanFixesClean("AB123CD");
  }

  lemma CurrentExampleIsCurrent()
    ensures NewFormat("AB123CD")
  {
  }

  /** A current-format plate typed with dashes is accepted without them. */
  lemma CurrentFormatExample()
    ensures CheckPlate("AB-123-CD") == PlateReport(true, "AB123CD", Nouveau)
  {
    CurrentExampleNormalises();
    ReportOfNormalised("AB-123-CD", "AB123CD");
    CurrentExampleIsClean();
    CurrentExampleIsCurrent();
  }

  lemma LegacyExampleIsClean()
    ensures Clean("1234AB75") == "1234AB75"
  {
    CleanFixesClean("1234AB75");
  }

  lemma LegacyExampleIsLegacy()
    ensures LegacyFormat("1234AB75") && !NewFormat("1234AB75")
  {
    assert LegacySplit("1234AB75", 4, 2);
  }

  /** A legacy plate with four digits, two letters and a department number. */
  lemma LegacyFormatExample()
    ensures CheckPlate("1234AB75") == PlateReport(true, "1234AB75", Ancien)
  {
    LegacyExampleIsClean();
    LegacyExampleIsLegacy();
  }

  lemma InvalidExampleIsClean()
    ensures Clean("AB1234") == "AB1234"
  {
    CleanFixesClean("AB1234");
  }

  lemma InvalidExampleMatchesNothing()
    ensures !LegacyFormat("AB1234") && !NewFormat("AB1234")
  {
    FirstCharOfFormats("AB1234");
    assert "AB1234"[0] == 'A';
  }

  /** Two letters then four digits match neither pattern. */
  lemma InvalidExample()
    ensures CheckPlate("AB1234") == PlateReport(false, "AB1234", Invalide)
  {
    InvalidExampleIsClean();
    InvalidExampleMatchesNothing();
  }

  lemma CutLegacyPlateNormalises()
    ensures Clean("12-34A-B7") == "1234AB7"
  {
    assert WithDashes("1234AB7") == "12-34A-B7";
    RemoveDashesWithDashes("1234AB7");
  }

  lemma CutLegacyPlateMatchesNothing()
    ensures !LegacyFormat("1234AB7") && !NewFormat("1234AB7")
  {
    LegacyFormatByRuns("1234AB7");
    FirstCharOfFormats("1234AB7");
    assert "1234AB7"[0] == '1';
  }

  lemma SlicedLegacyExample()
    ensures SlicedFormat("1234AB75") == "12-34A-B7"
  {
    LegacyExampleIsClean();
    DashSlicesBeyondSeven("1234AB75");
    assert "1234AB75"[..7] == "1234AB7";
    assert WithDashes("1234AB7") == "12-34A-B7";
  }

  /** Beyond seven characters they differ: an eight-character legacy plate stays whole on the home page
      and is cut and dashed into an invalid plate on the landing pages. */
  lemma FormattersDisagreeOnLongLegacyPlate()
    ensures ValidatePlaque("1234AB75")
    ensures TypedFormat("1234AB75") == "1234AB75"
    ensures SlicedFormat("1234AB75") == "12-34A-B7"
    ensures !ValidatePlaque(SlicedFormat("1234AB75"))
  {
    LegacyExampleIsClean();
    LegacyExampleIsLegacy();
    SlicedLegacyExample();
    CutLegacyPlateNormalises();
    CutLegacyPlateMatchesNothing();
  }

  lemma ShortLegacyExampleIsClean()
    ensures Clean("1AB75") == "1AB75"
  {
    CleanFixesClean("1AB75");
  }

  /** Legacy plates of five or six characters are valid but never get the valid class while typed. */
  lemma ShortLegacyPlateStaysUnmarked()
    ensures ValidatePlaque("1AB75")
    ensures OnHomeInput("1AB75").mark == Unmarked
  {
    ShortLegacyExampleIsClean();
    assert LegacySplit("1AB75", 1, 2);
  }
}
