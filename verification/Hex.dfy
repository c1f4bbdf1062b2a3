/** Hexadecimal digits, written and read. */
module Hex {
  import opened Bytes

  function Digit(n: nat, upper: bool): Byte
    requires n < 16
  {
    if n < 10 then 0x30 + n else (if upper then 0x41 else 0x61) + n - 10
  }

  /** The value of an ASCII digit in the given case. */
  function DigitValue(b: Byte, upper: bool): (r: Option<nat>)
    ensures r.Some? ==> r.value < 16
  {
    if 0x30 <= b <= 0x39 then Some(b - 0x30)
    else if upper && 0x41 <= b <= 0x46 then Some(b - 0x37)
    else if !upper && 0x61 <= b <= 0x66 then Some(b - 0x57)
    else None
  }

  /** The byte that two digits stand for, the high half first. */
  function ReadPair(high: Byte, low: Byte, upper: bool): Option<Byte> {
    match (DigitValue(high, upper), DigitValue(low, upper))
    case (Some(h), Some(l)) => Some(16 * h + l)
    case _ => None
  }

  /** Writing a byte as two digits and reading two digits undo each other. */
  lemma PairExactly(high: Byte, low: Byte, b: Byte, upper: bool)
    ensures ReadPair(high, low, upper) == Some(b) <==> high == Digit(b / 16, upper) && low == Digit(b % 16, upper)
  {}
}
