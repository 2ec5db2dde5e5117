/** Upstream pickup timestamps: the shape `YYYY-MM-DDTHH:MM:SS` that the
    calendar code hands to `datetime.strptime`, and calendar dates as
    `datetime.date()` returns them. */
module Timestamp {
  import opened Wrappers

  /** A naive local date-time, as `datetime.datetime` without a zone. */
  datatype DateTime = DateTime(year: int, month: int, day: int, hour: int, minute: int, second: int)

  /** A calendar date, as `datetime.date`. */
  datatype Date = Date(year: int, month: int, day: int)

  /** `t.date()`: the calendar day of a timestamp. */
  function DateOf(t: DateTime): Date
  {
    Date(t.year, t.month, t.day)
  }

  /** `a < b` on calendar dates: year, then month, then day. */
  predicate Before(a: Date, b: Date)
  {
    a.year < b.year ||
    (a.year == b.year && (a.month < b.month || (a.month == b.month && a.day < b.day)))
  }

  predicate IsLeapYear(y: int)
  {
    y % 4 == 0 && (y % 100 != 0 || y % 400 == 0)
  }

  function DaysInMonth(y: int, m: int): (n: int)
    requires 1 <= m <= 12
    ensures 28 <= n <= 31
  {
    if m == 2 then (if IsLeapYear(y) then 29 else 28)
    else if m == 4 || m == 6 || m == 9 || m == 11 then 30
    else 31
  }

  /** The values `datetime` accepts: years 1 to 9999, real days of the month,
      hours, minutes and seconds in their ranges (no leap second). */
  predicate Valid(t: DateTime)
  {
    1 <= t.year <= 9999 && 1 <= t.month <= 12 && 1 <= t.day <= DaysInMonth(t.year, t.month) &&
    0 <= t.hour < 24 && 0 <= t.minute < 60 && 0 <= t.second < 60
  }

  predicate IsDigit(c: char)
  {
    '0' <= c <= '9'
  }

  predicate AllDigits(s: string)
  {
    forall i | 0 <= i < |s| :: IsDigit(s[i])
  }

  function DigitChar(d: int): (c: char)
    requires 0 <= d < 10
    ensures IsDigit(c)
  {
    ('0' as int + d) as char
  }

  function Pow10(k: nat): (p: nat)
    ensures p >= 1
  {
    if k == 0 then 1 else 10 * Pow10(k - 1)
  }

  /** The number a run of decimal digits spells, most significant first. */
  function DigitsValue(s: string): (n: nat)
    requires AllDigits(s)
    ensures n < Pow10(|s|)
  {
    if s == [] then 0
    else DigitsValue(s[..|s| - 1]) * 10 + (s[|s| - 1] as int - '0' as int)
  }

  /** `n` written with exactly `width` decimal digits, zero-padded. */
  function Digits(n: nat, width: nat): (s: string)
    requires n < Pow10(width)
    ensures |s| == width && AllDigits(s)
  {
    if width == 0 then [] else Digits(n / 10, width - 1) + [DigitChar(n % 10)]
  }

  lemma {:induction false} DigitsThenValue(n: nat, width: nat)
    requires n < Pow10(width)
    ensures DigitsValue(Digits(n, width)) == n
  {
    if width > 0 {
      var s := Digits(n, width);
      assert s[..|s| - 1] == Digits(n / 10, width - 1);
      DigitsThenValue(n / 10, width - 1);
    }
  }

  lemma {:induction false} ValueThenDigits(s: string)
    requires AllDigits(s)
    ensures Digits(DigitsValue(s), |s|) == s
  {
    if s != [] {
      var init := s[..|s| - 1];
      ValueThenDigits(init);
      assert s == init + [s[|s| - 1]];
    }
  }

  /** The fixed positions of the separators in `YYYY-MM-DDTHH:MM:SS`. */
  predicate IsSeparatorPos(i: int)
  {
    i == 4 || i == 7 || i == 10 || i == 13 || i == 16
  }

  /** The text has the upstream shape: 19 characters, digits everywhere but
      at the separators, and the separators `-`, `-`, `T`, `:`, `:`. */
  predicate WellShaped(s: string)
  {
    |s| == 19 &&
    s[4] == '-' && s[7] == '-' && s[10] == 'T' && s[13] == ':' && s[16] == ':' &&
    forall i | 0 <= i < 19 && !IsSeparatorPos(i) :: IsDigit(s[i])
  }

  function Field(s: string, lo: nat, hi: nat): nat
    requires WellShaped(s) && lo <= hi <= 19
    requires forall i | lo <= i < hi :: !IsSeparatorPos(i)
  {
    DigitsValue(s[lo..hi])
  }

  /** The timestamp `datetime.strptime(s, "%Y-%m-%dT%H:%M:%S")` returns, or
      `None` where it raises `ValueError`; restricted to zero-padded fields. */
  function ParseTimestamp(s: string): (r: Option<DateTime>)
    ensures r.Some? ==> Valid(r.value) && WellShaped(s)
  {
    if !WellShaped(s) then None
    else
      var t := DateTime(Field(s, 0, 4), Field(s, 5, 7), Field(s, 8, 10),
                        Field(s, 11, 13), Field(s, 14, 16), Field(s, 17, 19));
      if Valid(t) then Some(t) else None
  }

  /** The canonical upstream text of a timestamp (`isoformat()` without
      fractional seconds). */
  function FormatTimestamp(t: DateTime): (s: string)
    requires Valid(t)
    ensures WellShaped(s)
  {
    Digits(t.year, 4) + "-" + Digits(t.month, 2) + "-" + Digits(t.day, 2) + "T" +
    Digits(t.hour, 2) + ":" + Digits(t.minute, 2) + ":" + Digits(t.second, 2)
  }

  /** Every valid timestamp written in the upstream shape parses back to itself. */
  lemma FormatThenParse(t: DateTime)
    requires Valid(t)
    ensures ParseTimestamp(FormatTimestamp(t)) == Some(t)
  {
    var s := FormatTimestamp(t);
    assert s[0..4] == Digits(t.year, 4);
    assert s[5..7] == Digits(t.month, 2);
    assert s[8..10] == Digits(t.day, 2);
    assert s[11..13] == Digits(t.hour, 2);
    assert s[14..16] == Digits(t.minute, 2);
    assert s[17..19] == Digits(t.second, 2);
    DigitsThenValue(t.year, 4);
    DigitsThenValue(t.month, 2);
    DigitsThenValue(t.day, 2);
    DigitsThenValue(t.hour, 2);
    DigitsThenValue(t.minute, 2);
    DigitsThenValue(t.second, 2);
  }

  /** Every accepted text is the canonical text of what it parses to: the
      parser loses nothing and accepts one spelling per timestamp. */
  lemma ParseThenFormat(s: string)
    requires ParseTimestamp(s).Some?
    ensures FormatTimestamp(ParseTimestamp(s).value) == s
  {
    var t := ParseTimestamp(s).value;
    var year, month, day := Digits(t.year, 4), Digits(t.month, 2), Digits(t.day, 2);
    var hour, minute, second := Digits(t.hour, 2), Digits(t.minute, 2), Digits(t.second, 2);
    assert FormatTimestamp(t) == year + "-" + month + "-" + day + "T" + hour + ":" + minute + ":" + second;
    ValueThenDigits(s[0..4]);
    ValueThenDigits(s[5..7]);
    ValueThenDigits(s[8..10]);
    ValueThenDigits(s[11..13]);
    ValueThenDigits(s[14..16]);
    ValueThenDigits(s[17..19]);
    assert year == s[0..4] && month == s[5..7] && day == s[8..10];
    assert hour == s[11..13] && minute == s[14..16] && second == s[17..19];
    SplitShape(s);
  }

  lemma SplitShape(s: string)
    requires WellShaped(s)
    ensures s == s[0..4] + "-" + s[5..7] + "-" + s[8..10] + "T" + s[11..13] + ":" + s[14..16] + ":" + s[17..19]
  {
    var r := s[0..4] + "-" + s[5..7] + "-" + s[8..10] + "T" + s[11..13] + ":" + s[14..16] + ":" + s[17..19];
    assert |r| == 19;
    forall i | 0 <= i < 19 ensures r[i] == s[i] {
    }
  }

  /** The upstream texts of the worked examples parse to the expected
      timestamps. */
  lemma ScenarioTimestamps()
    ensures ParseTimestamp("2024-01-10T00:00:00") == Some(DateTime(2024, 1, 10, 0, 0, 0))
    ensures ParseTimestamp("2024-02-10T00:00:00") == Some(DateTime(2024, 2, 10, 0, 0, 0))
  {
    ScenarioDigits();
    assert FormatTimestamp(DateTime(2024, 1, 10, 0, 0, 0)) == "2024-01-10T00:00:00";
    assert FormatTimestamp(DateTime(2024, 2, 10, 0, 0, 0)) == "2024-02-10T00:00:00";
    FormatThenParse(DateTime(2024, 1, 10, 0, 0, 0));
    FormatThenParse(DateTime(2024, 2, 10, 0, 0, 0));
  }

  lemma ScenarioDigits()
    ensures Digits(2024, 4) == "2024"
    ensures Digits(0, 2) == "00" && Digits(1, 2) == "01" && Digits(2, 2) == "02" && Digits(10, 2) == "10"
  {
    assert Digits(2, 1) == "2" && Digits(0, 1) == "0" && Digits(1, 1) == "1";
    assert Digits(20, 2) == "20";
    assert Digits(202, 3) == "202";
  }
}
