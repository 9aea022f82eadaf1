/**
 * The conversion of a French long date ("15 décembre 2024", as the server
 * stores an article's `date`) into the ISO form "2024-12-15" that the article
 * pages put in `datetime` attributes and in the BlogPosting schema.
 *
 * Two copies exist: the list page's, which looks the lower-cased month up as it
 * is, and the article page's, which first replaces 'é' by 'e'. Neither finds a
 * month whose name keeps an accent after that step, and the lookup then falls
 * back to "01". `DateISO` is the conversion with every accent folded, which
 * agrees with the server's own ISO date for every day of the year.
 *
 * "Today" (new Date().toISOString().split('T')[0]) is a parameter.
 */
module FrenchDate {
  import opened Text
  import opened Slug

  /** The lookup table of both copies: unaccented month name to two-digit number. */
  const Months: map<string, string> := map[
    "janvier" := "01", "fevrier" := "02", "mars" := "03", "avril" := "04",
    "mai" := "05", "juin" := "06", "juillet" := "07", "aout" := "08",
    "septembre" := "09", "octobre" := "10", "novembre" := "11", "decembre" := "12"]

  /** The keys of `Months`, in calendar order. */
  const MonthKeys: seq<string> := [
    "janvier", "fevrier", "mars", "avril", "mai", "juin",
    "juillet", "aout", "septembre", "octobre", "novembre", "decembre"]

  /** The month names as the fr-FR long date writes them. */
  const MonthNames: seq<string> := [
    "janvier", "f\U{E9}vrier", "mars", "avril", "mai", "juin",
    "juillet", "ao\U{FB}t", "septembre", "octobre", "novembre", "d\U{E9}cembre"]

  /** A two-digit month or day: padStart(2, '0') of its decimal rendering. */
  function TwoDigits(n: nat): (r: string)
    ensures |r| >= 2
  {
    PadStart2(NatToString(n))
  }

  /** months[name] || '01' */
  function MonthNumber(name: string): (r: string)
    ensures name !in Months ==> r == "01"
    ensures name in Months ==> r == Months[name]
  {
    if name in Months then Months[name] else "01"
  }

  /** The conversion shared by both copies once the date is split on spaces. */
  function FromParts(parts: seq<string>, today: string): (r: string)
    ensures |parts| != 3 ==> r == today
    ensures |parts| == 3 ==> r == parts[2] + "-" + MonthNumber(parts[1]) + "-" + PadStart2(parts[0])
  {
    if |parts| == 3 then parts[2] + "-" + MonthNumber(parts[1]) + "-" + PadStart2(parts[0])
    else today
  }

  /** The list page's formatDateISO: lower-case, split, look up. */
  function ListDateISO(dateStr: string, today: string): (r: string)
    ensures var parts := Split(LowerString(dateStr), ' ');
            |parts| != 3 ==> r == today
    ensures var parts := Split(LowerString(dateStr), ' ');
            |parts| == 3 ==> r == parts[2] + "-" + MonthNumber(parts[1]) + "-" + PadStart2(parts[0])
    ensures dateStr == [] ==> r == today
  {
    FromParts(Split(LowerString(dateStr), ' '), today)
  }

  /** replace(/é/g, 'e') */
  function ReplaceAcute(s: string): (r: string)
    ensures |r| == |s| && '\U{E9}' !in r
    ensures forall i | 0 <= i < |s| :: r[i] == if s[i] == '\U{E9}' then 'e' else s[i]
  {
    seq(|s|, i requires 0 <= i < |s| => if s[i] == '\U{E9}' then 'e' else s[i])
  }

  /** The article page's formatDateISO: an empty date is today; 'é' becomes 'e' before the lookup. */
  function SingleDateISO(dateStr: string, today: string): (r: string)
    ensures dateStr == [] ==> r == today
  {
    if dateStr == [] then today
    else FromParts(Split(ReplaceAcute(LowerString(dateStr)), ' '), today)
  }

  /** The conversion with every accent folded, so that every month is found. */
  function DateISO(dateStr: string, today: string): (r: string)
    ensures dateStr == [] ==> r == today
  {
    if dateStr == [] then today
    else FromParts(Split(FoldString(dateStr), ' '), today)
  }

  // ---------------------------------------------------------------- dates the server writes

  /** Day, month name and year separated by single spaces. */
  function Assemble(d: nat, name: string, y: nat): string
  {
    NatToString(d) + [' '] + name + [' '] + NatToString(y)
  }

  /** The fr-FR long date of day d of month m of year y. */
  function LongDate(d: nat, m: nat, y: nat): string
    requires 1 <= m <= 12
  {
    Assemble(d, MonthNames[m - 1], y)
  }

  /** The ISO date of the same day, as toISOString writes it for years 1000 to 9999. */
  function IsoDate(d: nat, m: nat, y: nat): string
  {
    NatToString(y) + "-" + TwoDigits(m) + "-" + TwoDigits(d)
  }

  /** Below one hundred, the two digits are the tens and the units. */
  lemma TwoDigitsBelow100(n: nat)
    requires n < 100
    ensures TwoDigits(n) == [DigitChar(n / 10), DigitChar(n % 10)]
  {
    if n < 10 {
      assert NatToString(n) == [DigitChar(n)];
    } else {
      assert NatToString(n) == NatToString(n / 10) + [DigitChar(n % 10)];
      assert NatToString(n / 10) == [DigitChar(n / 10)];
    }
  }

  /** The table's entry for the m-th key, digit by digit. */
  lemma MonthEntry(m: nat)
    requires 1 <= m <= 12
    ensures MonthKeys[m - 1] in Months && Months[MonthKeys[m - 1]] == [DigitChar(m / 10), DigitChar(m % 10)]
  {
  }

  /** The table holds the twelve unaccented names, numbered in calendar order. */
  lemma MonthTableIsCalendar(m: nat)
    requires 1 <= m <= 12
    ensures MonthKeys[m - 1] in Months && MonthNumber(MonthKeys[m - 1]) == TwoDigits(m)
  {
    MonthEntry(m);
    TwoDigitsBelow100(m);
  }

  /** The three names that keep an accent after lower-casing are missing from the table. */
  lemma AccentedNamesMissing()
    ensures MonthNames[1] !in Months && MonthNames[7] !in Months && MonthNames[11] !in Months
  {
  }

  /** Lower-case letters, digits and spaces. */
  predicate Plain(s: string)
  {
    forall i | 0 <= i < |s| :: IsLower(s[i]) || IsDigit(s[i]) || s[i] == ' '
  }

  /** Nothing lower-casing would change. */
  predicate NoCapital(s: string)
  {
    forall i | 0 <= i < |s| :: !IsUpper(s[i]) && !('\U{C0}' <= s[i] <= '\U{DE}')
  }

  lemma {:induction false} FoldPlain(s: string)
    requires Plain(s)
    ensures FoldString(s) == s
  {
    if s != [] {
      FoldPlain(s[1..]);
      assert [s[0]] + s[1..] == s;
    }
  }

  lemma {:induction false} FoldAppend(a: string, b: string)
    ensures FoldString(a + b) == FoldString(a) + FoldString(b)
  {
    if a != [] {
      FoldAppend(a[1..], b);
      assert (a + b)[1..] == a[1..] + b;
    } else {
      assert a + b == b;
    }
  }

  lemma PlainDigits(n: nat)
    ensures Plain(NatToString(n)) && NoCapital(NatToString(n)) && ' ' !in NatToString(n)
    ensures '\U{E9}' !in NatToString(n)
  {
  }

  // ---------------------------------------------------------------- one fact per month

  lemma KeyPlain(m: nat)
    requires 1 <= m <= 12
    ensures Plain(MonthKeys[m - 1]) && ' ' !in MonthKeys[m - 1]
  {
  }

  lemma NameShape(m: nat)
    requires 1 <= m <= 12
    ensures NoCapital(MonthNames[m - 1]) && ' ' !in MonthNames[m - 1]
  {
  }

  lemma NamesAreKeys(m: nat)
    requires 1 <= m <= 12 && m != 2 && m != 8 && m != 12
    ensures MonthNames[m - 1] == MonthKeys[m - 1]
  {
  }

  /** A fold that maps each character to one character is computed character by character. */
  lemma {:induction false} FoldPointwise(s: string, t: string)
    requires |s| == |t|
    requires forall i | 0 <= i < |s| :: FoldChar(s[i]) == [t[i]]
    ensures FoldString(s) == t
  {
    if s != [] {
      FoldPointwise(s[1..], t[1..]);
      assert t == [t[0]] + t[1..];
    }
  }

  lemma FoldFevrier()
    ensures FoldString(MonthNames[1]) == MonthKeys[1]
  {
    FoldPointwise(MonthNames[1], MonthKeys[1]);
  }

  lemma FoldAout()
    ensures FoldString(MonthNames[7]) == MonthKeys[7]
  {
    FoldPointwise(MonthNames[7], MonthKeys[7]);
  }

  lemma FoldDecembre()
    ensures FoldString(MonthNames[11]) == MonthKeys[11]
  {
    FoldPointwise(MonthNames[11], MonthKeys[11]);
  }

  /** The unaccented form of each month name is the table's key. */
  lemma FoldMonthName(m: nat)
    requires 1 <= m <= 12
    ensures FoldString(MonthNames[m - 1]) == MonthKeys[m - 1]
  {
    if m == 2 {
      FoldFevrier();
    } else if m == 8 {
      FoldAout();
    } else if m == 12 {
      FoldDecembre();
    } else {
      NamesAreKeys(m);
      KeyPlain(m);
      FoldPlain(MonthKeys[m - 1]);
    }
  }

  /** Replacing 'é' leaves the August name with its circumflex, and turns the others into the table's keys. */
  lemma AcuteMonthName(m: nat)
    requires 1 <= m <= 12
    ensures m == 8 ==> ReplaceAcute(MonthNames[m - 1]) == MonthNames[7]
    ensures m != 8 ==> ReplaceAcute(MonthNames[m - 1]) == MonthKeys[m - 1]
  {
    if m != 2 && m != 8 && m != 12 {
      NamesAreKeys(m);
      KeyPlain(m);
    }
  }

  // ---------------------------------------------------------------- the conversions on a long date

  /** A well-formed long date splits into its day, month name and year. */
  lemma SplitAssembled(d: nat, name: string, y: nat)
    requires ' ' !in name
    ensures Split(Assemble(d, name, y), ' ') == [NatToString(d), name, NatToString(y)]
  {
    PlainDigits(d);
    PlainDigits(y);
    SplitWord(NatToString(y), ' ');
    SplitAfterWord(name, ' ', NatToString(y));
    SplitAfterWord(NatToString(d), ' ', name + [' '] + NatToString(y));
    assert Assemble(d, name, y) == NatToString(d) + [' '] + (name + [' '] + NatToString(y));
  }

  lemma ConvertAssembled(d: nat, name: string, y: nat, today: string)
    requires ' ' !in name
    ensures FromParts(Split(Assemble(d, name, y), ' '), today)
            == NatToString(y) + "-" + MonthNumber(name) + "-" + TwoDigits(d)
  {
    SplitAssembled(d, name, y);
  }

  /** Folding a long date folds its month name only. */
  lemma FoldAssembled(d: nat, name: string, y: nat)
    ensures FoldString(Assemble(d, name, y)) == Assemble(d, FoldString(name), y)
  {
    var ds, ys := NatToString(d), NatToString(y);
    PlainDigits(d);
    PlainDigits(y);
    FoldPlain(ds);
    FoldPlain(ys);
    FoldPlain([' ']);
    FoldAppend(ds + [' '] + name + [' '], ys);
    FoldAppend(ds + [' '] + name, [' ']);
    FoldAppend(ds + [' '], name);
    FoldAppend(ds, [' ']);
  }

  /** A long date whose month name has no capital is already lower case. */
  lemma LowerAssembled(d: nat, name: string, y: nat)
    requires NoCapital(name)
    ensures LowerString(Assemble(d, name, y)) == Assemble(d, name, y)
  {
    PlainDigits(d);
    PlainDigits(y);
    assert NoCapital(Assemble(d, name, y));
  }

  /** Replacing 'é' in a long date touches its month name only. */
  lemma AcuteAssembled(d: nat, name: string, y: nat)
    ensures ReplaceAcute(Assemble(d, name, y)) == Assemble(d, ReplaceAcute(name), y)
  {
    PlainDigits(d);
    PlainDigits(y);
  }

  lemma DateISOOfAssembled(d: nat, name: string, y: nat, today: string)
    requires ' ' !in FoldString(name)
    ensures DateISO(Assemble(d, name, y), today)
            == NatToString(y) + "-" + MonthNumber(FoldString(name)) + "-" + TwoDigits(d)
  {
    FoldAssembled(d, name, y);
    ConvertAssembled(d, FoldString(name), y, today);
  }

  lemma ListDateISOOfAssembled(d: nat, name: string, y: nat, today: string)
    requires NoCapital(name) && ' ' !in name
    ensures ListDateISO(Assemble(d, name, y), today)
            == NatToString(y) + "-" + MonthNumber(name) + "-" + TwoDigits(d)
  {
    LowerAssembled(d, name, y);
    ConvertAssembled(d, name, y, today);
  }

  lemma SingleDateISOOfAssembled(d: nat, name: string, y: nat, today: string)
    requires NoCapital(name) && ' ' !in name
    ensures SingleDateISO(Assemble(d, name, y), today)
            == NatToString(y) + "-" + MonthNumber(ReplaceAcute(name)) + "-" + TwoDigits(d)
  {
    LowerAssembled(d, name, y);
    AcuteAssembled(d, name, y);
    ConvertAssembled(d, ReplaceAcute(name), y, today);
  }

  /** The corrected conversion reads every long date back as the server's ISO date of the same day. */
  lemma DateISOOfLongDate(d: nat, m: nat, y: nat, today: string)
    requires 1 <= m <= 12
    ensures DateISO(LongDate(d, m, y), today) == IsoDate(d, m, y)
  {
    FoldMonthName(m);
    KeyPlain(m);
    DateISOOfAssembled(d, MonthNames[m - 1], y, today);
    MonthTableIsCalendar(m);
  }

  /** The list page's conversion reads February, August and December as January, and every other month right. */
  lemma ListDateISOOfLongDate(d: nat, m: nat, y: nat, today: string)
    requires 1 <= m <= 12
    ensures ListDateISO(LongDate(d, m, y), today) == IsoDate(d, if m in {2, 8, 12} then 1 else m, y)
  {
    NameShape(m);
    ListDateISOOfAssembled(d, MonthNames[m - 1], y, today);
    if m == 2 || m == 8 || m == 12 {
      AccentedNamesMissing();
      assert TwoDigits(1) == "01";
    } else {
      NamesAreKeys(m);
      MonthTableIsCalendar(m);
    }
  }

  /** The article page's conversion reads August as January, and every other month right. */
  lemma SingleDateISOOfLongDate(d: nat, m: nat, y: nat, today: string)
    requires 1 <= m <= 12
    ensures SingleDateISO(LongDate(d, m, y), today) == IsoDate(d, if m == 8 then 1 else m, y)
  {
    NameShape(m);
    SingleDateISOOfAssembled(d, MonthNames[m - 1], y, today);
    AcuteMonthName(m);
    if m == 8 {
      AccentedNamesMissing();
      assert TwoDigits(1) == "01";
    } else {
      MonthTableIsCalendar(m);
    }
  }

  /** "15 décembre 2024" is shown on the list page as 15 January. */
  lemma DecemberMisread(today: string)
    ensures ListDateISO(LongDate(15, 12, 2024), today) == IsoDate(15, 1, 2024)
    ensures IsoDate(15, 1, 2024) != IsoDate(15, 12, 2024)
  {
    ListDateISOOfLongDate(15, 12, 2024, today);
    var y := NatToString(2024);
    TwoDigitsBelow100(1);
    TwoDigitsBelow100(12);
    assert IsoDate(15, 1, 2024)[|y| + 1] == '0';
    assert IsoDate(15, 12, 2024)[|y| + 1] == '1';
  }

  /** "15 août 2024" is shown on the article page as 15 January. */
  lemma AugustMisread(today: string)
    ensures SingleDateISO(LongDate(15, 8, 2024), today) == IsoDate(15, 1, 2024)
    ensures IsoDate(15, 1, 2024) != IsoDate(15, 8, 2024)
  {
    SingleDateISOOfLongDate(15, 8, 2024, today);
    var y := NatToString(2024);
    TwoDigitsBelow100(1);
    TwoDigitsBelow100(8);
    assert IsoDate(15, 1, 2024)[|y| + 2] == '1';
    assert IsoDate(15, 8, 2024)[|y| + 2] == '8';
  }
}
