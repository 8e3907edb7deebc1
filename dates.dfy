/** java.time.LocalDate as far as the absence endpoints use it: the calendar
    date value, its chronological order, LocalDate.toString() and
    LocalDate.parse() over the ISO 8601 extended calendar-date form YYYY-MM-DD. */
module Dates {
  import opened Common

  /** A proleptic Gregorian calendar date. */
  datatype Date = Date(year: int, month: int, day: int)

  predicate IsLeapYear(y: int)
  {
    y % 4 == 0 && (y % 100 != 0 || y % 400 == 0)
  }

  function DaysInMonth(y: int, m: int): int
  {
    if m == 2 then (if IsLeapYear(y) then 29 else 28)
    else if m == 4 || m == 6 || m == 9 || m == 11 then 30
    else 31
  }

  /** A date that exists, in the years written with four unsigned digits. */
  predicate ValidDate(d: Date)
  {
    0 <= d.year <= 9999 && 1 <= d.month <= 12 && 1 <= d.day <= DaysInMonth(d.year, d.month)
  }

  /** A LocalDate value of the model: a valid date with a four-digit year. */
  type LocalDate = d: Date | ValidDate(d) witness Date(1970, 1, 1)

  /** A number that grows with the date: chronological order is order on Key. */
  function Key(d: Date): int
  {
    d.year * 10000 + d.month * 100 + d.day
  }

  /** Two valid dates have the same key only if they are the same date, so Key is a faithful order. */
  lemma KeyInjective(a: Date, b: Date)
    requires ValidDate(a) && ValidDate(b)
    ensures Key(a) == Key(b) ==> a == b
    ensures Key(a) < Key(b) <==> (a.year < b.year || (a.year == b.year && (a.month < b.month || (a.month == b.month && a.day < b.day))))
  {
  }

  // ---------------------------------------------------------------------------
  // Text form
  // ---------------------------------------------------------------------------

  function DigitChar(n: int): char
    requires 0 <= n <= 9
  {
    ('0' as int + n) as char
  }

  predicate IsDigit(c: char)
  {
    '0' <= c <= '9'
  }

  function DigitValue(c: char): int
    requires IsDigit(c)
  {
    c as int - '0' as int
  }

  function Pad2(n: int): (r: string)
    requires 0 <= n <= 99
    ensures |r| == 2
  {
    [DigitChar(n / 10), DigitChar(n % 10)]
  }

  function Pad4(n: int): (r: string)
    requires 0 <= n <= 9999
    ensures |r| == 4
  {
    [DigitChar(n / 1000), DigitChar(n / 100 % 10), DigitChar(n / 10 % 10), DigitChar(n % 10)]
  }

  /** LocalDate.toString() for years 0000-9999: "YYYY-MM-DD". */
  function ToIsoString(d: Date): (r: string)
    requires ValidDate(d)
    ensures |r| == 10 && r[4] == '-' && r[7] == '-'
  {
    Pad4(d.year) + "-" + Pad2(d.month) + "-" + Pad2(d.day)
  }

  /** The value of the digits s[i..j], all of which must be decimal digits. */
  function DigitsValue(s: string, i: int, j: int): int
    requires 0 <= i <= j <= |s|
    requires forall k :: i <= k < j ==> IsDigit(s[k])
    decreases j - i
  {
    if i == j then 0 else DigitsValue(s, i, j - 1) * 10 + DigitValue(s[j - 1])
  }

  predicate DigitsAt(s: string, i: int, j: int)
    requires 0 <= i <= j <= |s|
  {
    forall k :: i <= k < j ==> IsDigit(s[k])
  }

  /** LocalDate.parse(s) with the ISO_LOCAL_DATE formatter, restricted to unsigned four-digit years:
      None stands for the DateTimeParseException. */
  function ParseIsoDate(s: string): (r: Option<Date>)
    ensures r.Some? ==> ValidDate(r.value)
  {
    if |s| == 10 && s[4] == '-' && s[7] == '-' && DigitsAt(s, 0, 4) && DigitsAt(s, 5, 7) && DigitsAt(s, 8, 10) then
      var d := Date(DigitsValue(s, 0, 4), DigitsValue(s, 5, 7), DigitsValue(s, 8, 10));
      if ValidDate(d) then Some(d) else None
    else None
  }

  lemma Pad2Digits(n: int)
    requires 0 <= n <= 99
    ensures DigitsAt(Pad2(n), 0, 2) && DigitsValue(Pad2(n), 0, 2) == n
  {
    var s := Pad2(n);
    assert DigitsValue(s, 0, 1) == n / 10;
  }

  lemma Pad4Digits(n: int)
    requires 0 <= n <= 9999
    ensures DigitsAt(Pad4(n), 0, 4) && DigitsValue(Pad4(n), 0, 4) == n
  {
    var s := Pad4(n);
    assert DigitsValue(s, 0, 1) == n / 1000;
    assert DigitsValue(s, 0, 2) == n / 100;
    assert DigitsValue(s, 0, 3) == n / 10;
  }

  /** The value of a digit run depends only on those digits. */
  lemma {:induction false} DigitsValueSlice(s: string, i: int, j: int, t: string, o: int)
    requires 0 <= i <= j <= |s| && 0 <= o && o + (j - i) <= |t|
    requires DigitsAt(s, i, j)
    requires forall k :: i <= k < j ==> t[o + k - i] == s[k]
    ensures DigitsAt(t, o, o + (j - i)) && DigitsValue(t, o, o + (j - i)) == DigitsValue(s, i, j)
    decreases j - i
  {
    if i < j {
      DigitsValueSlice(s, i, j - 1, t, o);
      assert t[o + (j - 1) - i] == s[j - 1];
      assert forall k :: o <= k < o + (j - i) ==> t[k] == s[k - o + i];
    }
  }

  /** Parsing what toString printed gives the date back. */
  lemma ParseToIsoString(d: Date)
    requires ValidDate(d)
    ensures ParseIsoDate(ToIsoString(d)) == Some(d)
  {
    var s := ToIsoString(d);
    var y, m, dd := Pad4(d.year), Pad2(d.month), Pad2(d.day);
    assert s == y + "-" + m + "-" + dd;
    Pad4Digits(d.year);
    Pad2Digits(d.month);
    Pad2Digits(d.day);
    DigitsValueSlice(y, 0, 4, s, 0);
    DigitsValueSlice(m, 0, 2, s, 5);
    DigitsValueSlice(dd, 0, 2, s, 8);
  }

  /** Every accepted string is exactly the toString of the date it parses to. */
  lemma ToIsoStringOfParse(s: string)
    requires ParseIsoDate(s).Some?
    ensures ToIsoString(ParseIsoDate(s).value) == s
  {
    var d := ParseIsoDate(s).value;
    var t := ToIsoString(d);
    assert t == Pad4(d.year) + "-" + Pad2(d.month) + "-" + Pad2(d.day);
    DigitsValue4(s, 0);
    DigitsValue2(s, 5);
    DigitsValue2(s, 8);
    assert t[0] == s[0] && t[1] == s[1] && t[2] == s[2] && t[3] == s[3];
    assert t[5] == s[5] && t[6] == s[6] && t[8] == s[8] && t[9] == s[9];
    assert forall k :: 0 <= k < 10 ==> t[k] == s[k];
  }

  lemma DigitsValue2(s: string, i: int)
    requires 0 <= i && i + 2 <= |s| && DigitsAt(s, i, i + 2)
    ensures var v := DigitsValue(s, i, i + 2);
      0 <= v <= 99 && DigitChar(v / 10) == s[i] && DigitChar(v % 10) == s[i + 1]
  {
    assert DigitsValue(s, i, i + 1) == DigitValue(s[i]);
  }

  lemma DigitsValue4(s: string, i: int)
    requires 0 <= i && i + 4 <= |s| && DigitsAt(s, i, i + 4)
    ensures var v := DigitsValue(s, i, i + 4);
      0 <= v <= 9999 && DigitChar(v / 1000) == s[i] && DigitChar(v / 100 % 10) == s[i + 1]
      && DigitChar(v / 10 % 10) == s[i + 2] && DigitChar(v % 10) == s[i + 3]
  {
    var a, b, c, e := DigitValue(s[i]), DigitValue(s[i + 1]), DigitValue(s[i + 2]), DigitValue(s[i + 3]);
    assert DigitsValue(s, i, i + 1) == a;
    assert DigitsValue(s, i, i + 2) == a * 10 + b;
    assert DigitsValue(s, i, i + 3) == (a * 10 + b) * 10 + c;
    var v := ((a * 10 + b) * 10 + c) * 10 + e;
    assert DigitsValue(s, i, i + 4) == v;
    assert v / 10 == (a * 10 + b) * 10 + c && v % 10 == e;
    assert v / 100 == a * 10 + b && v / 100 % 10 == b;
    assert v / 1000 == a;
  }
}
