/**
 * Calendar dates as the `data` column of a transaction holds them, the validity rule that
 * `datetime.strptime(data_str, "%Y-%m-%d")` enforces, and the `YYYY-MM-DD` text form used
 * both when a transaction is created and when it is listed.
 */
module Calendar {
  import opened Wrappers

  datatype Date = Date(year: int, month: int, day: int)

  /** Leap years of the proleptic Gregorian calendar. */
  predicate IsLeapYear(year: int) {
    year % 4 == 0 && (year % 100 != 0 || year % 400 == 0)
  }

  function DaysInMonth(year: int, month: int): (n: int)
    requires 1 <= month <= 12
    ensures 28 <= n <= 31
    ensures n == 28 <==> month == 2 && !IsLeapYear(year)
    ensures n == 29 <==> month == 2 && IsLeapYear(year)
    ensures n == 31 <==> month in {1, 3, 5, 7, 8, 10, 12}
  {
    if month == 2 then (if IsLeapYear(year) then 29 else 28)
    else if month in {4, 6, 9, 11} then 30
    else 31
  }

  /** A date `datetime` can represent: years 1 to 9999, months 1 to 12, days within the month. */
  predicate ValidDate(d: Date) {
    1 <= d.year <= 9999 && 1 <= d.month <= 12 && 1 <= d.day <= DaysInMonth(d.year, d.month)
  }

  predicate IsDigit(c: char) {
    '0' <= c <= '9'
  }

  predicate AllDigits(s: string) {
    forall i :: 0 <= i < |s| ==> IsDigit(s[i])
  }

  function DigitValue(c: char): (v: int)
    requires IsDigit(c)
    ensures 0 <= v <= 9
  {
    c as int - '0' as int
  }

  function DigitChar(v: int): (c: char)
    requires 0 <= v <= 9
    ensures IsDigit(c) && DigitValue(c) == v
  {
    ('0' as int + v) as char
  }

  function Pow10(n: nat): (p: nat)
    ensures p >= 1
  {
    if n == 0 then 1 else 10 * Pow10(n - 1)
  }

  /** The number a string of decimal digits denotes; it has fewer digits than the string is long. */
  function NumberOf(s: string): (n: int)
    requires AllDigits(s)
    ensures 0 <= n < Pow10(|s|)
  {
    if s == [] then 0 else NumberOf(s[..|s| - 1]) * 10 + DigitValue(s[|s| - 1])
  }

  /** The last `width` decimal digits of `n`, padded with zeros on the left. */
  function Digits(n: nat, width: nat): (s: string)
    ensures |s| == width && AllDigits(s)
  {
    if width == 0 then [] else Digits(n / 10, width - 1) + [DigitChar(n % 10)]
  }

  lemma {:induction false} NumberOfDigits(n: nat, width: nat)
    requires n < Pow10(width)
    ensures NumberOf(Digits(n, width)) == n
  {
    if width > 0 {
      var s := Digits(n, width);
      assert n / 10 < Pow10(width - 1);
      NumberOfDigits(n / 10, width - 1);
      assert s[..width - 1] == Digits(n / 10, width - 1);
      assert DigitValue(s[width - 1]) == n % 10;
    }
  }

  lemma {:induction false} DigitsOfNumber(s: string)
    requires AllDigits(s)
    ensures Digits(NumberOf(s), |s|) == s
  {
    if s != [] {
      var init := s[..|s| - 1];
      var n := NumberOf(s);
      assert AllDigits(init);
      DigitsOfNumber(init);
      assert n / 10 == NumberOf(init) && n % 10 == DigitValue(s[|s| - 1]);
      assert s == init + [s[|s| - 1]];
    }
  }

  /** `strftime("%Y-%m-%d")`: four-digit year, two-digit month and day, separated by dashes. */
  function FormatDate(d: Date): (s: string)
    requires ValidDate(d)
    ensures |s| == 10 && s[4] == '-' && s[7] == '-'
  {
    Digits(d.year, 4) + "-" + Digits(d.month, 2) + "-" + Digits(d.day, 2)
  }

  /**
   * Parsing of a `YYYY-MM-DD` string: `None` where `strptime` raises `ValueError`, either because
   * the text is not of that shape or because the date does not exist in the calendar.
   */
  function ParseDate(s: string): (r: Option<Date>)
    ensures r.Some? ==> ValidDate(r.value)
  {
    if |s| == 10 && s[4] == '-' && s[7] == '-'
       && AllDigits(s[..4]) && AllDigits(s[5..7]) && AllDigits(s[8..])
    then
      var d := Date(NumberOf(s[..4]), NumberOf(s[5..7]), NumberOf(s[8..]));
      if ValidDate(d) then Some(d) else None
    else
      None
  }

  /** Every valid date survives formatting and parsing back. */
  lemma ParseFormat(d: Date)
    requires ValidDate(d)
    ensures ParseDate(FormatDate(d)) == Some(d)
  {
    var s := FormatDate(d);
    assert Pow10(4) == 10000 && Pow10(2) == 100;
    assert s[..4] == Digits(d.year, 4);
    assert s[5..7] == Digits(d.month, 2);
    assert s[8..] == Digits(d.day, 2);
    NumberOfDigits(d.year, 4);
    NumberOfDigits(d.month, 2);
    NumberOfDigits(d.day, 2);
  }

  /** Every string that parses is the canonical text of the date it denotes. */
  lemma FormatParse(s: string)
    requires ParseDate(s).Some?
    ensures FormatDate(ParseDate(s).value) == s
  {
    DigitsOfNumber(s[..4]);
    DigitsOfNumber(s[5..7]);
    DigitsOfNumber(s[8..]);
    assert s == s[..4] + "-" + s[5..7] + "-" + s[8..];
  }

  lemma NumberOfTwo(a: char, b: char)
    requires IsDigit(a) && IsDigit(b)
    ensures NumberOf([a, b]) == 10 * DigitValue(a) + DigitValue(b)
  {
    assert [a, b][..1] == [a];
    assert [a][..0] == [];
  }

  lemma NumberOfFour(a: char, b: char, c: char, e: char)
    requires IsDigit(a) && IsDigit(b) && IsDigit(c) && IsDigit(e)
    ensures NumberOf([a, b, c, e]) == 1000 * DigitValue(a) + 100 * DigitValue(b) + 10 * DigitValue(c) + DigitValue(e)
  {
    assert [a, b, c, e][..3] == [a, b, c];
    assert [a, b, c][..2] == [a, b];
    NumberOfTwo(a, b);
  }

  /** Parsing text assembled from three digit fields reads the fields as numbers. */
  lemma ParseFields(y: string, m: string, dd: string)
    requires |y| == 4 && |m| == 2 && |dd| == 2
    requires AllDigits(y) && AllDigits(m) && AllDigits(dd)
    ensures var d := Date(NumberOf(y), NumberOf(m), NumberOf(dd));
            ParseDate(y + "-" + m + "-" + dd) == if ValidDate(d) then Some(d) else None
  {
    var s := y + "-" + m + "-" + dd;
    assert s[..4] == y && s[5..7] == m && s[8..] == dd;
  }

  /** A month outside 1 to 12 is rejected. */
  lemma MonthThirteenExample()
    ensures ParseDate("2024-13-01") == None
  {
    NumberOfTwo('1', '3');
    ParseFields("2024", "13", "01");
    assert "2024" + "-" + "13" + "-" + "01" == "2024-13-01";
  }

  /** February 29 does not exist in a common year. */
  lemma CommonYearExample()
    ensures ParseDate("2023-02-29") == None
  {
    NumberOfFour('2', '0', '2', '3');
    NumberOfTwo('0', '2');
    NumberOfTwo('2', '9');
    ParseFields("2023", "02", "29");
    assert "2023" + "-" + "02" + "-" + "29" == "2023-02-29";
  }

  /** February 29 exists in a leap year. */
  lemma LeapYearExample()
    ensures ParseDate("2024-02-29") == Some(Date(2024, 2, 29))
  {
    NumberOfFour('2', '0', '2', '4');
    NumberOfTwo('0', '2');
    NumberOfTwo('2', '9');
    ParseFields("2024", "02", "29");
    assert "2024" + "-" + "02" + "-" + "29" == "2024-02-29";
  }
}
