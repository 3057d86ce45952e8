/**
 * A user's karma level (ftml data/karma.rs): six levels, represented as the
 * bytes 0 to 5, with conversions in both directions and decimal display.
 */
module Karma {
  import opened Wrappers

  newtype u8 = x: int | 0 <= x < 256

  datatype KarmaLevel = Zero | One | Two | Three | Four | Five

  /** `From<KarmaLevel> for u8`: the level's number. */
  function ToU8(level: KarmaLevel): (v: u8)
    ensures v <= 5
  {
    match level
    case Zero => 0
    case One => 1
    case Two => 2
    case Three => 3
    case Four => 4
    case Five => 5
  }

  /** `TryFrom<u8> for KarmaLevel`: an out-of-range byte comes back as the error. */
  function TryFrom(value: u8): (r: Result<KarmaLevel, u8>)
    ensures r.Err? <==> value > 5
    ensures r.Err? ==> r.error == value
  {
    match value
    case 0 => Ok(Zero)
    case 1 => Ok(One)
    case 2 => Ok(Two)
    case 3 => Ok(Three)
    case 4 => Ok(Four)
    case 5 => Ok(Five)
    case _ => Err(value)
  }

  /** `KarmaLevel::new` */
  function New(value: u8): (r: Option<KarmaLevel>)
    ensures r.Some? <==> value <= 5
  {
    match TryFrom(value)
    case Ok(level) => Some(level)
    case Err(_) => None
  }

  /** `KarmaLevel::value`: at most 5, and `new` of it gives the level back. */
  function Value(level: KarmaLevel): (v: u8)
    ensures v <= 5
    ensures New(v) == Some(level)
  {
    ToU8(level)
  }

  /** From a byte to a level and back. */
  lemma ByteRoundTrip(v: u8)
    requires v <= 5
    ensures New(v).Some? && Value(New(v).value) == v
  {
  }

  /** From a level to a byte and back. */
  lemma LevelRoundTrip(level: KarmaLevel)
    ensures New(Value(level)) == Some(level)
    ensures TryFrom(ToU8(level)) == Ok(level)
  {
  }

  /** Distinct levels have distinct values. */
  lemma ValueInjective(a: KarmaLevel, b: KarmaLevel)
    ensures Value(a) == Value(b) <==> a == b
  {
    LevelRoundTrip(a);
    LevelRoundTrip(b);
  }

  // ---------------------------------------------------------------------------
  // Display

  function Digit(d: nat): char
    requires d < 10
  {
    ('0' as int + d) as char
  }

  /** `{}` formatting of an unsigned integer: its decimal digits, most significant first. */
  function Decimal(n: nat): string
    decreases n
  {
    if n < 10 then [Digit(n)] else Decimal(n / 10) + [Digit(n % 10)]
  }

  predicate IsDigit(c: char) {
    '0' <= c <= '9'
  }

  /** The number a string of decimal digits denotes. */
  function DigitsValue(s: string): nat
    requires forall i :: 0 <= i < |s| ==> IsDigit(s[i])
  {
    if |s| == 0 then 0
    else
      assert IsDigit(s[|s| - 1]);
      DigitsValue(s[..|s| - 1]) * 10 + (s[|s| - 1] as int - '0' as int)
  }

  /** Decimal formatting is read back as the same number, without leading zeros. */
  lemma {:induction false} DecimalRoundTrip(n: nat)
    ensures |Decimal(n)| > 0
    ensures forall i :: 0 <= i < |Decimal(n)| ==> IsDigit(Decimal(n)[i])
    ensures DigitsValue(Decimal(n)) == n
    ensures |Decimal(n)| > 1 ==> Decimal(n)[0] != '0'
    decreases n
  {
    if n >= 10 {
      DecimalRoundTrip(n / 10);
      var s := Decimal(n);
      assert s[..|s| - 1] == Decimal(n / 10);
    }
  }

  /** `Display for KarmaLevel`: the single decimal digit of the level's value. */
  function Display(level: KarmaLevel): (s: string)
    ensures |s| == 1
    ensures IsDigit(s[0])
    ensures DigitsValue(s) == Value(level) as nat
  {
    DecimalRoundTrip(Value(level) as nat);
    Decimal(Value(level) as nat)
  }
}
