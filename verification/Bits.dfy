/** Bytes and their exclusive or. */
module Bits {
  import opened Arithmetic

  newtype byte = x: int | 0 <= x < 0x100

  /** Exclusive or of numbers of `n` bits: a bit is set where exactly one of the two is. */
  function XorBits(n: nat, a: nat, b: nat): (r: nat)
    requires a < Pow2(n) && b < Pow2(n)
    ensures r < Pow2(n)
  {
    if n == 0 then 0
    else 2 * XorBits(n - 1, a / 2, b / 2) + if a % 2 == b % 2 then 0 else 1
  }

  lemma EightBits()
    ensures Pow2(8) == 0x100
  {
    assert Pow2(4) == 16;
  }

  function XorByte(a: byte, b: byte): byte {
    EightBits();
    XorBits(8, a as nat, b as nat) as byte
  }

  lemma LowestBit(n: nat, a: nat, b: nat)
    requires n > 0 && a < Pow2(n) && b < Pow2(n)
    ensures var r := XorBits(n, a, b);
            r / 2 == XorBits(n - 1, a / 2, b / 2) && r % 2 == if a % 2 == b % 2 then 0 else 1
  {
  }

  lemma {:induction false} XorIsAssociative(n: nat, a: nat, b: nat, c: nat)
    requires a < Pow2(n) && b < Pow2(n) && c < Pow2(n)
    ensures XorBits(n, XorBits(n, a, b), c) == XorBits(n, a, XorBits(n, b, c))
  {
    if n > 0 {
      var left, right := XorBits(n, a, b), XorBits(n, b, c);
      LowestBit(n, a, b);
      LowestBit(n, b, c);
      LowestBit(n, left, c);
      LowestBit(n, a, right);
      hide XorBits, Pow2;
      XorIsAssociative(n - 1, a / 2, b / 2, c / 2);
    }
  }

  lemma {:induction false} EqualBitsCancel(n: nat, a: nat, b: nat)
    requires a < Pow2(n) && b < Pow2(n)
    ensures XorBits(n, a, b) == XorBits(n, b, a)
    ensures XorBits(n, a, a) == 0 && XorBits(n, a, 0) == a
  {
    if n > 0 {
      EqualBitsCancel(n - 1, a / 2, b / 2);
    }
  }

  /** The order of the operands does not matter, equal bytes cancel, and zero changes
      nothing. */
  lemma XorByteLaws(a: byte, b: byte, c: byte)
    ensures XorByte(a, b) == XorByte(b, a)
    ensures XorByte(XorByte(a, b), c) == XorByte(a, XorByte(b, c))
    ensures XorByte(a, a) == 0 && XorByte(a, 0) == a
  {
    hide XorBits;
    EightBits();
    XorIsAssociative(8, a as nat, b as nat, c as nat);
    EqualBitsCancel(8, a as nat, b as nat);
  }
}
