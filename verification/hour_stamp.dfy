/** The date-hour stamp `datetime.now().strftime('%Y%m%d%H')` that qualifies
    generated key-pair names, with the clock reading passed in as a value. */
module HourStamp {

  /** A clock reading truncated to the hour. */
  datatype DateHour = DateHour(year: nat, month: nat, day: nat, hour: nat)
  {
    /** A reading the clock can produce, with a four-digit year. */
    predicate Valid()
    {
      1000 <= year <= 9999 && 1 <= month <= 12 && 1 <= day <= 31 && hour <= 23
    }
  }

  function Pow10(n: nat): nat
  {
    if n == 0 then 1 else 10 * Pow10(n - 1)
  }

  predicate IsDigit(c: char)
  {
    '0' <= c <= '9'
  }

  function DigitChar(d: nat): (c: char)
    requires d < 10
    ensures IsDigit(c)
  {
    ('0' as int + d) as char
  }

  function DigitValue(c: char): nat
    requires IsDigit(c)
  {
    c as int - '0' as int
  }

  /** The last `width` decimal digits of `n`, zero-padded (strftime's `%Y`, `%m`, `%d`, `%H`). */
  function Decimal(n: nat, width: nat): (s: string)
    ensures |s| == width
    ensures forall i :: 0 <= i < |s| ==> IsDigit(s[i])
  {
    if width == 0 then [] else Decimal(n / 10, width - 1) + [DigitChar(n % 10)]
  }

  /** The number a string of decimal digits denotes. */
  function Value(s: string): nat
    requires forall i :: 0 <= i < |s| ==> IsDigit(s[i])
  {
    if s == [] then 0 else 10 * Value(s[..|s| - 1]) + DigitValue(s[|s| - 1])
  }

  /** Reading back the digits gives the number, when it fits in the width. */
  lemma {:induction false} ValueOfDecimal(n: nat, width: nat)
    requires n < Pow10(width)
    ensures Value(Decimal(n, width)) == n
  {
    if width > 0 {
      var s := Decimal(n, width);
      assert s[..|s| - 1] == Decimal(n / 10, width - 1);
      ValueOfDecimal(n / 10, width - 1);
    }
  }

  /** The ten-digit stamp YYYYmmddHH. */
  function Stamp(d: DateHour): (s: string)
    requires d.Valid()
    ensures |s| == 10
    ensures forall i :: 0 <= i < |s| ==> IsDigit(s[i])
  {
    Decimal(d.year, 4) + Decimal(d.month, 2) + Decimal(d.day, 2) + Decimal(d.hour, 2)
  }

  /** Reads a ten-digit stamp back into its fields. */
  function ParseStamp(s: string): DateHour
    requires |s| == 10
    requires forall i :: 0 <= i < |s| ==> IsDigit(s[i])
  {
    DateHour(Value(s[..4]), Value(s[4..6]), Value(s[6..8]), Value(s[8..]))
  }

  /** The stamp loses nothing: parsing it gives back the reading. */
  lemma StampRoundTrip(d: DateHour)
    requires d.Valid()
    ensures ParseStamp(Stamp(d)) == d
  {
    var s := Stamp(d);
    assert s[..4] == Decimal(d.year, 4);
    assert s[4..6] == Decimal(d.month, 2);
    assert s[6..8] == Decimal(d.day, 2);
    assert s[8..] == Decimal(d.hour, 2);
    ValueOfDecimal(d.year, 4);
    ValueOfDecimal(d.month, 2);
    ValueOfDecimal(d.day, 2);
    ValueOfDecimal(d.hour, 2);
  }

  /** Different hours give different stamps. */
  lemma StampInjective(d1: DateHour, d2: DateHour)
    requires d1.Valid() && d2.Valid()
    requires Stamp(d1) == Stamp(d2)
    ensures d1 == d2
  {
    StampRoundTrip(d1);
    StampRoundTrip(d2);
  }
}
