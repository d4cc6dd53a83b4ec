/**
 * Calendar dates and the `%Y-%m-%d` format of Python's `datetime.strptime`: a four-digit
 * year, a month of one or two digits, and a day of one or two digits (or a blank and one digit),
 * which must name a real day of the proleptic Gregorian calendar from year 1 to 9999.
 */
module Dates {
  import opened Wrappers
  import opened Text

  datatype Date = Date(year: int, month: int, day: int)

  predicate IsLeap(y: int) {
    y % 4 == 0 && (y % 100 != 0 || y % 400 == 0)
  }

  function DaysIn(y: int, m: int): int {
    if m == 2 then (if IsLeap(y) then 29 else 28)
    else if m == 4 || m == 6 || m == 9 || m == 11 then 30
    else 31
  }

  /** The dates `datetime.date` accepts. */
  predicate Valid(d: Date) {
    1 <= d.year <= 9999 && 1 <= d.month <= 12 && 1 <= d.day <= DaysIn(d.year, d.month)
  }

  /** The month field: `1[0-2]|0[1-9]|[1-9]`. */
  predicate MonthField(s: string) {
    (|s| == 1 && '1' <= s[0] <= '9')
    || (|s| == 2 && s[0] == '0' && '1' <= s[1] <= '9')
    || (|s| == 2 && s[0] == '1' && '0' <= s[1] <= '2')
  }

  /** The day field: `3[01]|[12]\d|0[1-9]|[1-9]| [1-9]`. */
  predicate DayField(s: string) {
    (|s| == 1 && '1' <= s[0] <= '9')
    || (|s| == 2 && s[0] == ' ' && '1' <= s[1] <= '9')
    || (|s| == 2 && s[0] == '0' && '1' <= s[1] <= '9')
    || (|s| == 2 && (s[0] == '1' || s[0] == '2') && IsDigit(s[1]))
    || (|s| == 2 && s[0] == '3' && (s[1] == '0' || s[1] == '1'))
  }

  /** The value of a field whose characters are digits, after an optional leading blank. */
  function FieldValue(s: string): nat {
    var t := if |s| > 0 && s[0] == ' ' then s[1..] else s;
    if AllDigits(t) then DigitsValue(t) else 0
  }

  /** `datetime.strptime(s, "%Y-%m-%d").date()`: None where it raises ValueError. */
  function ParseIso(s: string): (r: Option<Date>)
    ensures r.Some? ==> Valid(r.value)
  {
    var pieces := Split(s, '-');
    if |pieces| != 3 then None
    else
      var y, m, d := pieces[0], pieces[1], pieces[2];
      if !(|y| == 4 && AllDigits(y)) || !MonthField(m) || !DayField(d) then None
      else
        var date := Date(DigitsValue(y), FieldValue(m), FieldValue(d));
        if Valid(date) then Some(date) else None
  }

  /** `n` as exactly `width` digits, zero-padded (for `n < 10^width`). */
  function Padded(n: nat, width: nat): (r: string)
    ensures |r| == width && AllDigits(r)
    decreases width
  {
    if width == 0 then "" else Padded(n / 10, width - 1) + [DigitChar(n % 10)]
  }

  lemma {:induction false} PaddedValue(n: nat, width: nat)
    requires n < Pow10(width)
    ensures DigitsValue(Padded(n, width)) == n
    decreases width
  {
    if width > 0 {
      var r := Padded(n, width);
      assert r[..|r| - 1] == Padded(n / 10, width - 1);
      PaddedValue(n / 10, width - 1);
    }
  }

  /** `date.isoformat()`: YYYY-MM-DD. */
  function Format(d: Date): (r: string)
    requires Valid(d)
    ensures |r| == 10
  {
    Padded(d.year, 4) + "-" + Padded(d.month, 2) + "-" + Padded(d.day, 2)
  }

  lemma SplitThree(y: string, m: string, d: string)
    requires '-' !in y && '-' !in m && '-' !in d
    ensures Split(y + "-" + m + "-" + d, '-') == [y, m, d]
  {
    SplitJoin([y, m, d], '-');
    assert [y, m, d][1..] == [m, d];
    assert [m, d][1..] == [d];
    assert Join([d], "-") == d;
    assert Join([m, d], "-") == m + "-" + d;
    assert Join([y, m, d], "-") == y + "-" + (m + "-" + d);
    assert y + "-" + m + "-" + d == y + "-" + (m + "-" + d);
  }

  /** A two-digit field: its digits are those of `n`, and it reads back as `n`. */
  lemma PaddedOne(n: nat)
    requires n < 10
    ensures Padded(n, 1) == [DigitChar(n)]
  {
    assert Padded(n, 1) == Padded(n / 10, 0) + [DigitChar(n % 10)];
  }

  lemma PaddedFieldValue(n: nat, width: nat)
    requires n < Pow10(width)
    ensures FieldValue(Padded(n, width)) == n
  {
    PaddedValue(n, width);
    var p := Padded(n, width);
    assert |p| > 0 ==> IsDigit(p[0]);
  }

  /** A two-digit field: its digits are those of `n`, and it reads back as `n`. */
  lemma PaddedTwo(n: nat)
    requires n < 100
    ensures var p := Padded(n, 2); p == [DigitChar(n / 10), DigitChar(n % 10)] && FieldValue(p) == n
  {
    PaddedOne(n / 10);
    assert Padded(n, 2) == Padded(n / 10, 1) + [DigitChar(n % 10)];
    PaddedFieldValue(n, 2);
  }

  lemma MonthPadded(n: int)
    requires 1 <= n <= 12
    ensures MonthField(Padded(n, 2)) && FieldValue(Padded(n, 2)) == n
  {
    PaddedTwo(n);
  }

  lemma DayPadded(n: int)
    requires 1 <= n <= 31
    ensures DayField(Padded(n, 2)) && FieldValue(Padded(n, 2)) == n
  {
    PaddedTwo(n);
  }

  /** Three fields of the right shapes, joined by dashes: the date they name, if it is a real day. */
  lemma ParseOfFields(y: string, m: string, dd: string)
    requires '-' !in y && '-' !in m && '-' !in dd
    requires |y| == 4 && AllDigits(y) && MonthField(m) && DayField(dd)
    ensures var date := Date(DigitsValue(y), FieldValue(m), FieldValue(dd));
      ParseIso(y + "-" + m + "-" + dd) == if Valid(date) then Some(date) else None
  {
    SplitThree(y, m, dd);
  }

  /** Every valid date reads back from its YYYY-MM-DD form. */
  lemma ParseFormat(d: Date)
    requires Valid(d)
    ensures ParseIso(Format(d)) == Some(d)
  {
    var y, m, dd := Padded(d.year, 4), Padded(d.month, 2), Padded(d.day, 2);
    PaddedValue(d.year, 4);
    MonthPadded(d.month);
    DayPadded(d.day);
    assert '-' !in y && '-' !in m && '-' !in dd by {
      assert AllDigits(y) && AllDigits(m) && AllDigits(dd);
    }
    ParseOfFields(y, m, dd);
    assert Format(d) == y + "-" + m + "-" + dd;
  }

  lemma Year2023()
    ensures |"2023"| == 4 && AllDigits("2023") && DigitsValue("2023") == 2023
  {
    assert "2023"[..3] == "202" && "202"[..2] == "20" && "20"[..1] == "2" && "2"[..0] == "";
  }

  lemma February29()
    ensures MonthField("02") && FieldValue("02") == 2
    ensures DayField("29") && FieldValue("29") == 29
  {
    assert "02"[..1] == "0" && "0"[..0] == "";
    assert "29"[..1] == "2" && "2"[..0] == "";
  }

  /** 29 February outside a leap year names no day, so it is rejected. */
  lemma NoLeapDay2023()
    ensures ParseIso("2023-02-29") == None
  {
    Year2023();
    February29();
    ParseOfFields("2023", "02", "29");
    assert !Valid(Date(2023, 2, 29));
    assert "2023" + "-" + "02" + "-" + "29" == "2023-02-29";
  }
}
