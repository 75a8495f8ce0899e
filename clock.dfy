/** The text of the clock widget (`myClock`, SCRIPT/script.js): a zero-padded
    `HH:MM` time and a `DD MonthName YYYY` date, built from calendar fields
    that the script reads from `new Date()` and that are parameters here. */
module Clock {
  import opened Optional

  predicate IsDigit(c: char) {
    '0' <= c <= '9'
  }

  predicate IsDigits(s: string) {
    forall i :: 0 <= i < |s| ==> IsDigit(s[i])
  }

  function DigitValue(c: char): nat
    requires IsDigit(c)
  {
    (c as int) - ('0' as int)
  }

  function DigitChar(d: nat): (c: char)
    requires d < 10
    ensures IsDigit(c) && DigitValue(c) == d
  {
    (('0' as int) + d) as char
  }

  /** `String(n)` for a non-negative integer: its decimal digits, with no
      leading zero. */
  function NatToString(n: nat): (s: string)
    ensures 1 <= |s| && IsDigits(s)
    ensures n < 10 ==> |s| == 1
    ensures 10 <= n < 100 ==> |s| == 2
    ensures s[0] == '0' <==> n == 0
    decreases n
  {
    if n < 10 then [DigitChar(n)]
    else NatToString(n / 10) + [DigitChar(n % 10)]
  }

  /** The value of a string of decimal digits (leading zeros allowed). */
  function ParseDecimal(s: string): nat
    requires IsDigits(s)
    decreases |s|
  {
    if s == [] then 0
    else 10 * ParseDecimal(s[..|s| - 1]) + DigitValue(s[|s| - 1])
  }

  /** Decimal printing is undone by decimal parsing. */
  lemma {:induction false} ParseNatToString(n: nat)
    ensures ParseDecimal(NatToString(n)) == n
  {
    if n >= 10 {
      var s := NatToString(n);
      assert s[..|s| - 1] == NatToString(n / 10);
      ParseNatToString(n / 10);
    }
  }

  /** `s.padStart(width, fill)` with a one-character `fill`: `s` itself when
      it is already `width` long, otherwise `s` preceded by as many `fill`
      characters as make it `width` long. */
  function PadStart(s: string, width: nat, fill: char): (r: string)
    ensures |r| == if |s| >= width then |s| else width
    ensures r[|r| - |s|..] == s
    ensures forall i :: 0 <= i < |r| - |s| ==> r[i] == fill
  {
    if |s| >= width then s
    else seq(width - |s|, _ => fill) + s
  }

  /** `String(n).padStart(2, "0")`: a number of one digit gets a leading
      zero, a longer one is left as it is. */
  function TwoDigits(n: nat): (r: string)
    ensures |r| >= 2 && IsDigits(r)
    ensures n < 10 ==> r == ['0'] + NatToString(n)
    ensures n >= 10 ==> r == NatToString(n)
  {
    PadStart(NatToString(n), 2, '0')
  }

  /** Below 100, the padded field is exactly two digits and reads back as `n`. */
  lemma TwoDigitsRoundTrip(n: nat)
    requires n < 100
    ensures |TwoDigits(n)| == 2 && IsDigits(TwoDigits(n))
    ensures ParseDecimal(TwoDigits(n)) == n
  {
    var d := NatToString(n);
    if n < 10 {
      assert d == [DigitChar(n)];
      var t := ['0'] + d;
      assert PadStart(d, 2, '0') == t;
      assert t[..1] == ['0'] && ParseDecimal(t[..1]) == 0 by {
        assert t[..1][..0] == [];
      }
      assert ParseDecimal(t) == 10 * ParseDecimal(t[..1]) + DigitValue(t[1]);
    } else {
      assert PadStart(d, 2, '0') == d;
      ParseNatToString(n);
    }
  }

  /** The time text: padded hour, a colon, padded minute. Its only colon
      sits right after the hour field, and both fields are digits. */
  function TimeString(hour: nat, minute: nat): (r: string)
    ensures var h := |TwoDigits(hour)|;
      |r| >= 5 && h < |r| && r[h] == ':' && IsDigits(r[..h]) && IsDigits(r[h + 1..])
  {
    var a, b := TwoDigits(hour), TwoDigits(minute);
    JoinedPair(a, ':', b);
    a + [':'] + b
  }

  /** Where each field of `a sep b` sits in the joined text. */
  lemma JoinedPair<T>(a: seq<T>, sep: T, b: seq<T>)
    ensures var t := a + [sep] + b;
      |t| == |a| + 1 + |b| && t[..|a|] == a && t[|a|] == sep && t[|a| + 1..] == b
  {
    var t := a + [sep] + b;
    assert t[..|a|] == a;
    assert t[|a| + 1..] == b;
  }

  /** For a wall-clock hour and minute the time text is five characters,
      `HH:MM`, and both fields read back as the hour and the minute. */
  lemma TimeStringShape(hour: nat, minute: nat)
    requires hour < 24 && minute < 60
    ensures var t := TimeString(hour, minute);
      |t| == 5 && t[2] == ':' && IsDigits(t[..2]) && IsDigits(t[3..]) &&
      ParseDecimal(t[..2]) == hour && ParseDecimal(t[3..]) == minute
  {
    var a, b := TwoDigits(hour), TwoDigits(minute);
    TwoDigitsRoundTrip(hour);
    TwoDigitsRoundTrip(minute);
    JoinedPair(a, ':', b);
  }

  /** The month table, indexed by `Date.prototype.getMonth()`. */
  const MonthNames: seq<string> := [
    "January", "February", "March", "April", "May", "June", "July",
    "August", "September", "October", "November", "December"
  ]

  /** `String(year)`: a minus sign before the digits of a negative year, and
      no leading zero except in "0" itself. */
  function YearString(year: int): (r: string)
    ensures |r| >= 1
    ensures r[0] == '-' <==> year < 0
    ensures year >= 0 ==> IsDigits(r) && (r[0] == '0' <==> year == 0)
    ensures year < 0 ==> |r| >= 2 && IsDigits(r[1..]) && r[1] != '0'
  {
    if year < 0 then
      var d := NatToString(-year);
      assert ("-" + d)[1..] == d;
      "-" + d
    else NatToString(year)
  }

  /** The date text: padded day of the month, the month's name, the year. */
  function DateString(day: nat, month: nat, year: int): (r: string)
    requires month < |MonthNames|
    ensures var d, m, y := |TwoDigits(day)|, MonthNames[month], YearString(year);
      |r| == d + 1 + |m| + 1 + |y| &&
      IsDigits(r[..d]) && r[d] == ' ' &&
      r[d + 1..d + 1 + |m|] == m && r[d + 1 + |m|] == ' ' &&
      r[|r| - |y|..] == y
  {
    var a, m, y := TwoDigits(day), MonthNames[month], YearString(year);
    JoinedFields(a, ' ', m, y);
    a + [' '] + m + [' '] + y
  }

  /** Where each field of `a sep m sep y` sits in the joined text. */
  lemma JoinedFields<T>(a: seq<T>, sep: T, m: seq<T>, y: seq<T>)
    ensures var t := a + [sep] + m + [sep] + y;
      |t| == |a| + 1 + |m| + 1 + |y| &&
      t[..|a|] == a && t[|a|] == sep &&
      t[|a| + 1..|a| + 1 + |m|] == m && t[|a| + 1 + |m|] == sep &&
      t[|t| - |y|..] == y
  {
    var t := a + [sep] + m + [sep] + y;
    assert t[..|a|] == a;
    assert t[|a| + 1..|a| + 1 + |m|] == m;
    assert t[|t| - |y|..] == y;
  }

  // Reading the texts back: partial inverses used to state what the texts carry.

  function MonthIndexFrom(name: string, i: nat): (r: Option<nat>)
    ensures r.Some? ==> i <= r.value < |MonthNames| && MonthNames[r.value] == name
    decreases |MonthNames| - i
  {
    if i >= |MonthNames| then None
    else if MonthNames[i] == name then Some(i)
    else MonthIndexFrom(name, i + 1)
  }

  /** The position of a month name in the table. */
  function MonthIndex(name: string): Option<nat> {
    MonthIndexFrom(name, 0)
  }

  /** The table has twelve names, no two alike and none containing a space,
      so each name identifies its month. */
  lemma MonthIndexOfName(month: nat)
    requires month < |MonthNames|
    ensures |MonthNames| == 12
    ensures MonthIndex(MonthNames[month]) == Some(month)
    ensures ' ' !in MonthNames[month]
  {
  }

  function ParseYear(s: string): Option<int> {
    if |s| > 1 && s[0] == '-' && IsDigits(s[1..]) then Some(0 - ParseDecimal(s[1..]) as int)
    else if |s| > 0 && IsDigits(s) then Some(ParseDecimal(s))
    else None
  }

  lemma ParseYearString(year: int)
    ensures ParseYear(YearString(year)) == Some(year)
  {
    var s := YearString(year);
    if year < 0 {
      var d := NatToString(-year);
      assert s == "-" + d;
      assert s[1..] == d;
      ParseNatToString(-year);
      assert ParseYear(s) == Some(0 - ParseDecimal(d) as int);
    } else {
      assert s == NatToString(year);
      ParseNatToString(year);
      assert ParseYear(s) == Some(ParseDecimal(s));
    }
  }

  /** The index of the first `c` in `s`, or `|s|` when there is none. */
  function IndexOfChar(s: string, c: char): (r: nat)
    ensures r <= |s|
  {
    if s == [] then 0
    else if s[0] == c then 0
    else 1 + IndexOfChar(s[1..], c)
  }

  lemma {:induction false} IndexOfCharAfter(a: string, c: char, b: string)
    requires c !in a
    ensures IndexOfChar(a + [c] + b, c) == |a|
  {
    if a != [] {
      assert (a + [c] + b)[1..] == a[1..] + [c] + b;
      IndexOfCharAfter(a[1..], c, b);
    }
  }

  /** Splits `MonthName Year` into the month index and the year. */
  function ParseMonthYear(s: string): Option<(nat, int)> {
    var j := IndexOfChar(s, ' ');
    if j == |s| then None
    else
      match MonthIndex(s[..j])
      case None => None
      case Some(month) =>
        match ParseYear(s[j + 1..])
        case None => None
        case Some(year) => Some((month, year))
  }

  lemma ParseMonthYearOf(month: nat, year: int)
    requires month < |MonthNames|
    ensures ParseMonthYear(MonthNames[month] + " " + YearString(year)) == Some((month, year))
  {
    var name, ys := MonthNames[month], YearString(year);
    MonthIndexOfName(month);
    ParseYearString(year);
    assert name + " " + ys == name + [' '] + ys;
    ParseMonthYearSplit(name, ys);
  }

  /** A name with no space, a space, then a year text: the split finds the
      name and the year. */
  lemma ParseMonthYearSplit(name: string, ys: string)
    requires ' ' !in name
    ensures ParseMonthYear(name + [' '] + ys) ==
      match MonthIndex(name)
      case None => None
      case Some(month) =>
        match ParseYear(ys)
        case None => None
        case Some(year) => Some((month, year))
  {
    IndexOfCharAfter(name, ' ', ys);
    JoinedPair(name, ' ', ys);
  }

  /** Splits a date text into day, month index and year, if it has that shape. */
  function ParseDate(s: string): Option<(nat, nat, int)> {
    if |s| < 3 || !IsDigits(s[..2]) || s[2] != ' ' then None
    else
      match ParseMonthYear(s[3..])
      case None => None
      case Some((month, year)) => Some((ParseDecimal(s[..2]), month, year))
  }

  lemma ParseDateSplit(dd: string, rest: string)
    requires |dd| == 2 && IsDigits(dd) && ParseMonthYear(rest).Some?
    ensures ParseDate(dd + " " + rest) ==
      Some((ParseDecimal(dd), ParseMonthYear(rest).value.0, ParseMonthYear(rest).value.1))
  {
    var s := dd + " " + rest;
    assert s[..2] == dd;
    assert s[3..] == rest;
  }

  lemma DateStringParts(day: nat, month: nat, year: int)
    requires month < |MonthNames|
    ensures DateString(day, month, year) ==
      TwoDigits(day) + " " + (MonthNames[month] + " " + YearString(year))
  {
    var a, m, y := TwoDigits(day), MonthNames[month], YearString(year);
    assert a + " " + m + " " + y == a + " " + (m + " " + y);
  }

  /** The date text carries exactly its calendar fields: the day (below 100),
      the month and the year can all be read back from it. */
  lemma ParseDateString(day: nat, month: nat, year: int)
    requires day < 100 && month < |MonthNames|
    ensures ParseDate(DateString(day, month, year)) == Some((day, month, year))
  {
    var dd, rest := TwoDigits(day), MonthNames[month] + " " + YearString(year);
    TwoDigitsRoundTrip(day);
    ParseMonthYearOf(month, year);
    ParseDateSplit(dd, rest);
    DateStringParts(day, month, year);
  }
}
