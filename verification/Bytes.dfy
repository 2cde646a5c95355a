/** Bytes as the C++ code sees them (`uint8_t`), and the one bitwise operation the models need.
    Masks and shifts by constants are written as division and remainder by powers of two. */
module Bytes {

  type Byte = b: int | 0 <= b < 256

  function Pow2(n: nat): (p: nat)
    ensures p > 0
  {
    if n == 0 then 1 else 2 * Pow2(n - 1)
  }

  /** The exclusive or of the low `bits` bits of a and b, bit by bit. */
  function XorBits(a: nat, b: nat, bits: nat): (x: nat)
    ensures x < Pow2(bits)
  {
    if bits == 0 then 0
    else (if a % 2 == b % 2 then 0 else 1) + 2 * XorBits(a / 2, b / 2, bits - 1)
  }

  /** `a ^ b` on `uint8_t`. */
  function Xor(a: Byte, b: Byte): (x: Byte)
  {
    assert Pow2(8) == 256 by { PowersOfTwo(); }
    XorBits(a, b, 8)
  }

  lemma PowersOfTwo()
    ensures Pow2(8) == 256
  {
    assert Pow2(2) == 4;
    assert Pow2(4) == 16;
    assert Pow2(6) == 64;
  }

  lemma {:induction false} XorBitsTwice(a: nat, b: nat, bits: nat)
    requires a < Pow2(bits)
    ensures XorBits(XorBits(a, b, bits), b, bits) == a
  {
    if bits > 0 {
      var x := XorBits(a / 2, b / 2, bits - 1);
      assert XorBits(a, b, bits) / 2 == x;
      XorBitsTwice(a / 2, b / 2, bits - 1);
    }
  }

  lemma XorTwice(a: Byte, b: Byte)
    ensures Xor(Xor(a, b), b) == a
  {
    PowersOfTwo();
    XorBitsTwice(a, b, 8);
  }

  /** The binary digit of weight w in the exclusive or: set where the two numbers differ. */
  function Flip(a: nat, b: nat, w: nat): nat
    requires w > 0
  {
    if a / w % 2 == b / w % 2 then 0 else w
  }

  lemma XorDigit(a: nat, b: nat, bits: nat)
    ensures XorBits(a, b, bits + 1) == 2 * XorBits(a / 2, b / 2, bits) + Flip(a, b, 1)
    ensures XorBits(a, b, 0) == 0
  {
  }

  lemma XorTwo(a: nat, b: nat, bits: nat)
    ensures XorBits(a, b, bits + 2) == 4 * XorBits(a / 4, b / 4, bits) + Flip(a, b, 1) + Flip(a, b, 2)
  {
    XorDigit(a, b, bits + 1);
    XorDigit(a / 2, b / 2, bits);
    hide XorBits;
    assert a / 2 / 2 == a / 4 && b / 2 / 2 == b / 4;
  }

  lemma Fourth(a: nat)
    ensures a / 4 / 1 == a / 4 && a / 4 / 2 == a / 8 && a / 4 / 4 == a / 16
  {
  }

  lemma XorFour(a: nat, b: nat, bits: nat)
    ensures XorBits(a, b, bits + 4)
         == 16 * XorBits(a / 16, b / 16, bits) + Flip(a, b, 1) + Flip(a, b, 2) + Flip(a, b, 4) + Flip(a, b, 8)
  {
    XorTwo(a, b, bits + 2);
    XorTwo(a / 4, b / 4, bits);
    hide XorBits;
    Fourth(a);
    Fourth(b);
  }

  lemma Sixteenth(a: nat)
    ensures a / 16 / 1 == a / 16 && a / 16 / 2 == a / 32 && a / 16 / 4 == a / 64 && a / 16 / 8 == a / 128
  {
  }

  /** The exclusive or of two bytes, digit by digit. */
  lemma XorIs(a: Byte, b: Byte)
    ensures Xor(a, b) == Flip(a, b, 1) + Flip(a, b, 2) + Flip(a, b, 4) + Flip(a, b, 8)
                         + Flip(a, b, 16) + Flip(a, b, 32) + Flip(a, b, 64) + Flip(a, b, 128)
  {
    XorFour(a, b, 4);
    XorFour(a / 16, b / 16, 0);
    XorDigit(a / 16 / 16, b / 16 / 16, 0);
    hide XorBits;
    Sixteenth(a);
    Sixteenth(b);
  }

  /** The 32-bit value whose big-endian bytes are a, b, c, d. */
  function Word(a: Byte, b: Byte, c: Byte, d: Byte): (w: int)
    ensures 0 <= w < 0x1_0000_0000
  {
    ((a * 0x100 + b) * 0x100 + c) * 0x100 + d
  }

  /** The four big-endian bytes of a 32-bit value: `w >> 24`, `w >> 16`, `w >> 8` and `w`, each cut to a byte. */
  function WordBytes(w: int): (s: seq<Byte>)
    requires 0 <= w < 0x1_0000_0000
    ensures |s| == 4
  {
    var w1 := w / 0x100;
    var w2 := w1 / 0x100;
    [w2 / 0x100, w2 % 0x100, w1 % 0x100, w % 0x100]
  }

  lemma Quotient(q: int, r: Byte)
    ensures (q * 0x100 + r) / 0x100 == q && (q * 0x100 + r) % 0x100 == r
  {
  }

  lemma WordOfBytes(a: Byte, b: Byte, c: Byte, d: Byte)
    ensures WordBytes(Word(a, b, c, d)) == [a, b, c, d]
  {
    Quotient((a * 0x100 + b) * 0x100 + c, d);
    Quotient(a * 0x100 + b, c);
    Quotient(a, b);
  }

  lemma BytesOfWord(w: int)
    requires 0 <= w < 0x1_0000_0000
    ensures var s := WordBytes(w); Word(s[0], s[1], s[2], s[3]) == w
  {
  }

  lemma Assoc<T>(a: seq<T>, b: seq<T>, c: seq<T>)
    ensures a + b + c == a + (b + c)
  {
  }
}
