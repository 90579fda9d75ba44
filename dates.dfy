/** The run's processing date and its `%Y-%m-%d` rendering, which names the
    snapshot partition (`raw/YYYY-MM-DD/...`). The wall clock itself is not
    modelled: callers pass the current UTC date in. */
module Dates {

  datatype UtcDate = UtcDate(year: int, month: int, day: int)

  /** The dates a wall clock reading can give: a four-digit year, a month
      and a day of the month. */
  predicate ValidDate(d: UtcDate) {
    1000 <= d.year <= 9999 && 1 <= d.month <= 12 && 1 <= d.day <= 31
  }

  function Pow10(w: nat): (p: nat)
    ensures p >= 1
  {
    if w == 0 then 1 else 10 * Pow10(w - 1)
  }

  predicate IsDigit(c: char) {
    '0' <= c <= '9'
  }

  function DigitChar(d: int): (c: char)
    requires 0 <= d < 10
    ensures IsDigit(c) && c as int - '0' as int == d
  {
    ('0' as int + d) as char
  }

  /** `n` in decimal, zero-padded to exactly `width` digits. */
  function Digits(n: nat, width: nat): (s: string)
    requires n < Pow10(width)
    ensures |s| == width
    ensures forall k :: 0 <= k < |s| ==> IsDigit(s[k])
  {
    if width == 0 then ""
    else Digits(n / 10, width - 1) + [DigitChar(n % 10)]
  }

  /** The value of a string of decimal digits. */
  function ParseDigits(s: string): int
  {
    if |s| == 0 then 0
    else 10 * ParseDigits(s[..|s| - 1]) + (s[|s| - 1] as int - '0' as int)
  }

  lemma {:induction false} ParseDigitsOf(n: nat, width: nat)
    requires n < Pow10(width)
    ensures ParseDigits(Digits(n, width)) == n
  {
    if width > 0 {
      var s := Digits(n, width);
      ParseDigitsOf(n / 10, width - 1);
      assert s[..|s| - 1] == Digits(n / 10, width - 1);
    }
  }

  /** `date.strftime("%Y-%m-%d")`. */
  function FormatDate(d: UtcDate): (s: string)
    requires ValidDate(d)
    ensures |s| == 10 && s[4] == '-' && s[7] == '-'
    ensures forall k :: 0 <= k < 10 && k != 4 && k != 7 ==> IsDigit(s[k])
  {
    assert Pow10(4) == 10000 && Pow10(2) == 100;
    Digits(d.year, 4) + "-" + Digits(d.month, 2) + "-" + Digits(d.day, 2)
  }

  /** Reads a `YYYY-MM-DD` string back into a date. */
  function ParseDate(s: string): UtcDate
    requires |s| == 10
  {
    UtcDate(ParseDigits(s[..4]), ParseDigits(s[5..7]), ParseDigits(s[8..]))
  }

  /** The partition key determines the date: formatting loses nothing, so two
      different run dates never share a snapshot path. */
  lemma FormatDateRoundTrip(d: UtcDate)
    requires ValidDate(d)
    ensures ParseDate(FormatDate(d)) == d
  {
    assert Pow10(4) == 10000 && Pow10(2) == 100;
    var y, m, dd := Digits(d.year, 4), Digits(d.month, 2), Digits(d.day, 2);
    var s := FormatDate(d);
    assert s == y + "-" + m + "-" + dd;
    assert s[..4] == y;
    assert s[5..7] == m;
    assert s[8..] == dd;
    ParseDigitsOf(d.year, 4);
    ParseDigitsOf(d.month, 2);
    ParseDigitsOf(d.day, 2);
  }

  lemma FormatDateInjective(d1: UtcDate, d2: UtcDate)
    requires ValidDate(d1) && ValidDate(d2)
    requires FormatDate(d1) == FormatDate(d2)
    ensures d1 == d2
  {
    FormatDateRoundTrip(d1);
    FormatDateRoundTrip(d2);
  }
}
