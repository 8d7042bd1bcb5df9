/**
 * The freestanding memset the program links instead of the C runtime's.
 * The target pointer is the array itself; the advancing byte pointer is an
 * index into it.
 */
module Crt {

  /** The range of a C `int`. */
  newtype int32 = x: int | -0x8000_0000 <= x < 0x8000_0000

  /** An `unsigned char`. */
  newtype uint8 = x: int | 0 <= x < 256

  /** static_cast<unsigned char>(value): the low byte of value's two's-complement form. */
  function ToUnsignedChar(value: int32): (b: uint8)
    ensures (b as int - value as int) % 256 == 0
    ensures 0 <= value < 256 ==> b as int == value as int
  {
    (value as int % 256) as uint8
  }

  /** memset(target, value, count): writes the low byte of value into the first count bytes and returns target. */
  method Memset(target: array<uint8>, value: int32, count: nat) returns (r: array<uint8>)
    requires count <= target.Length
    modifies target
    ensures r == target
    ensures forall i :: 0 <= i < count ==> target[i] == ToUnsignedChar(value)
    ensures forall i :: count <= i < target.Length ==> target[i] == old(target[i])
  {
    var b := ToUnsignedChar(value);
    var p := 0;
    var remaining := count;
    while remaining > 0
      invariant p + remaining == count && p <= count
      invariant forall i :: 0 <= i < p ==> target[i] == b
      invariant forall i :: p <= i < target.Length ==> target[i] == old(target[i])
    {
      target[p] := b;
      p := p + 1;
      remaining := remaining - 1;
    }
    r := target;
  }
}
