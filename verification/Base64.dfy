/** The strict base64 codec of src/lib/base64.cpp (RFC 4648, sections 3.2, 3.5 and 4). */
module Base64 {
  import opened Bytes
  import opened Options

  type Sextet = v: int | 0 <= v < 64

  const PAD: Byte := 61

  /** The character of a symbol: A-Z, a-z, 0-9, '+' and '/', in that order. */
  function Chr(v: Sextet): Byte {
    if v < 26 then 65 + v
    else if v < 52 then 71 + v
    else if v < 62 then v - 4
    else if v == 62 then 43 else 47
  }

  /** The symbol of a character, -1 for a character out of the alphabet ('=' among them). */
  function Sym(c: Byte): int {
    if 65 <= c <= 90 then c - 65
    else if 97 <= c <= 122 then c - 71
    else if 48 <= c <= 57 then c + 4
    else if c == 43 then 62
    else if c == 47 then 63 else -1
  }

  lemma SymOfChr(v: Sextet)
    ensures Sym(Chr(v)) == v
  {
  }

  lemma ChrOfSym(c: Byte)
    requires Sym(c) >= 0
    ensures Sym(c) < 64 && Chr(Sym(c)) == c
  {
  }

  function Text(vs: seq<Sextet>): (s: seq<Byte>)
    ensures |s| == |vs|
  {
    seq(|vs|, i requires 0 <= i < |vs| => Chr(vs[i]))
  }

  // ----- encoding -----

  /** The four symbols of three bytes, each from the one or two bytes its bits come from. */
  function Symbol0(b0: Byte): Sextet { b0 / 4 }
  function Symbol1(b0: Byte, b1: Byte): Sextet { b0 % 4 * 16 + b1 / 16 }
  function Symbol2(b1: Byte, b2: Byte): Sextet { b1 % 16 * 4 + b2 / 64 }
  function Symbol3(b2: Byte): Sextet { b2 % 64 }

  function Group(b0: Byte, b1: Byte, b2: Byte): (vs: seq<Sextet>)
    ensures |vs| == 4
  {
    [Symbol0(b0), Symbol1(b0, b1), Symbol2(b1, b2), Symbol3(b2)]
  }

  /** The symbols of a byte string: three bytes give four, a rest of one or two bytes gives two or three. */
  function Symbols(b: seq<Byte>): (vs: seq<Sextet>)
    ensures |vs| == |b| / 3 * 4 + (if |b| % 3 == 0 then 0 else |b| % 3 + 1)
  {
    if b == [] then []
    else if |b| == 1 then [Symbol0(b[0]), Symbol1(b[0], 0)]
    else if |b| == 2 then [Symbol0(b[0]), Symbol1(b[0], b[1]), Symbol2(b[1], 0)]
    else Group(b[0], b[1], b[2]) + Symbols(b[3..])
  }

  function Padding(n: nat): seq<Byte> {
    if n % 3 == 1 then [PAD, PAD] else if n % 3 == 2 then [PAD] else []
  }

  function Unpadded(b: seq<Byte>): seq<Byte> { Text(Symbols(b)) }

  /** The base64 text of a byte string. */
  function Encoded(b: seq<Byte>): seq<Byte> { Unpadded(b) + Padding(|b|) }

  /** Three bytes in one 32-bit word: `b0 << 16 | b1 << 8 | b2`. */
  function Triple(b0: Byte, b1: Byte, b2: Byte): nat { Word(0, b0, b1, b2) }

  /** The symbols the program cuts out of the word, by shifts of 18, 12, 6 and 0 bits. */
  function Cut(triple: nat): (vs: seq<Sextet>)
    ensures |vs| == 4
  {
    var by6 := triple / 0x40;
    var by12 := by6 / 0x40;
    var by18 := by12 / 0x40;
    [by18 % 0x40, by12 % 0x40, by6 % 0x40, triple % 0x40]
  }

  lemma Div64(q: int, r: int)
    requires 0 <= r < 0x40
    ensures (q * 0x40 + r) / 0x40 == q && (q * 0x40 + r) % 0x40 == r
  {
  }

  /** With b0 = 4a + b, b1 = 16c + d and b2 = 64e + f. */
  lemma TripleDigits(a: Sextet, b: nat, c: nat, d: nat, e: nat, f: Sextet)
    requires b < 4 && c < 16 && d < 16 && e < 4
    ensures Cut(((a * 4 + b) * 0x100 + (c * 16 + d)) * 0x100 + (e * 64 + f)) == [a, b * 16 + c, d * 4 + e, f]
  {
    var by18: int := a;
    var by12 := by18 * 0x40 + (b * 16 + c);
    var by6 := by12 * 0x40 + (d * 4 + e);
    Div64(by6, f);
    Div64(by12, d * 4 + e);
    Div64(by18, b * 16 + c);
    assert ((a * 4 + b) * 0x100 + (c * 16 + d)) * 0x100 + (e * 64 + f) == by6 * 0x40 + f;
  }

  lemma TripleBits(b0: Byte, b1: Byte, b2: Byte)
    ensures Cut(Triple(b0, b1, b2)) == Group(b0, b1, b2)
  {
    hide Cut;
    TripleDigits(b0 / 4, b0 % 4, b1 / 16, b1 % 16, b2 / 64, b2 % 64);
  }

  lemma TextConcat(a: seq<Sextet>, b: seq<Sextet>)
    ensures Text(a + b) == Text(a) + Text(b)
  {
  }

  lemma EncodedTail(b: seq<Byte>)
    requires |b| >= 3
    ensures Encoded(b) == Text(Group(b[0], b[1], b[2])) + Encoded(b[3..])
  {
    hide Text, Group;
    var head := Group(b[0], b[1], b[2]);
    assert Symbols(b) == head + Symbols(b[3..]);
    TextConcat(head, Symbols(b[3..]));
    Assoc(Text(head), Unpadded(b[3..]), Padding(|b|));
  }

  lemma EncodedRest(b: seq<Byte>)
    requires |b| == 1 || |b| == 2
    ensures |b| == 1 ==> Encoded(b) == Text(Group(b[0], 0, 0)[..2]) + [PAD, PAD]
    ensures |b| == 2 ==> Encoded(b) == Text(Group(b[0], b[1], 0)[..3]) + [PAD]
  {
    if |b| == 1 {
      assert Symbols(b) == Group(b[0], 0, 0)[..2];
    } else {
      assert Symbols(b) == Group(b[0], b[1], 0)[..3];
    }
  }

  method Base64Encode(bytes: seq<Byte>) returns (ret: seq<Byte>)
    ensures ret == Encoded(bytes)
  {
    hide Text, Group, Cut, Triple, Encoded;
    var len := |bytes|;
    ret := [];
    var i := 0;
    while i + 3 <= len
      invariant 0 <= i <= len
      invariant ret + Encoded(bytes[i..]) == Encoded(bytes)
    {
      var triple := Triple(bytes[i], bytes[i + 1], bytes[i + 2]);
      var four := Cut(triple);
      TripleBits(bytes[i], bytes[i + 1], bytes[i + 2]);
      EncodedTail(bytes[i..]);
      assert bytes[i..][3..] == bytes[i + 3..];
      Assoc(ret, Text(four), Encoded(bytes[i + 3..]));
      ret := ret + Text(four);
      i := i + 3;
    }
    var rest := len - i;
    ghost var tail := bytes[i..];
    if rest == 1 {
      TripleBits(bytes[i], 0, 0);
      EncodedRest(tail);
      ret := ret + (Text(Cut(Triple(bytes[i], 0, 0))[..2]) + [PAD, PAD]);
    } else if rest == 2 {
      TripleBits(bytes[i], bytes[i + 1], 0);
      EncodedRest(tail);
      ret := ret + (Text(Cut(Triple(bytes[i], bytes[i + 1], 0))[..3]) + [PAD]);
    } else {
      assert Encoded(tail) == [] by { EncodedEmpty(tail); }
    }
  }

  lemma EncodedEmpty(b: seq<Byte>)
    requires b == []
    ensures Encoded(b) == []
  {
  }

  // ----- decoding -----

  /** The decoder's bits: the bytes out so far, and the n bits left over. */
  datatype Bits = Bits(out: seq<Byte>, rem: nat, n: nat)
  {
    predicate Ok() { (n == 0 || n == 2 || n == 4 || n == 6) && rem < Pow2(n) }
  }

  lemma SmallPowers()
    ensures Pow2(0) == 1 && Pow2(2) == 4 && Pow2(4) == 16 && Pow2(6) == 64
  {
    assert Pow2(1) == 2 && Pow2(3) == 8 && Pow2(5) == 32;
  }

  /** A symbol cut in two. */
  function High4(v: Sextet): (h: int) ensures 0 <= h < 16 { v / 4 }
  function Low4(v: Sextet): (l: int) ensures 0 <= l < 4 { v % 4 }
  function High16(v: Sextet): (h: int) ensures 0 <= h < 4 { v / 16 }
  function Low16(v: Sextet): (l: int) ensures 0 <= l < 16 { v % 16 }

  /** Six more bits, with an accumulator that holds only what is left over. */
  function Push(b: Bits, v: Sextet): (r: Bits)
    requires b.Ok()
    ensures r.Ok()
  {
    SmallPowers();
    if b.n == 0 then Bits(b.out, v, 6)
    else if b.n == 2 then Bits(b.out + [b.rem * 64 + v], 0, 0)
    else if b.n == 4 then Bits(b.out + [b.rem * 16 + High4(v)], Low4(v), 2)
    else Bits(b.out + [b.rem * 4 + High16(v)], Low16(v), 4)
  }

  function PushAll(b: Bits, vs: seq<Sextet>): (r: Bits)
    requires b.Ok()
    ensures r.Ok()
    decreases |vs|
  {
    if vs == [] then b else PushAll(Push(b, vs[0]), vs[1..])
  }

  const EMPTY: Bits := Bits([], 0, 0)

  function Pads(k: nat): (s: seq<Byte>)
    ensures |s| == k
  {
    if k == 0 then [] else Pads(k - 1) + [PAD]
  }

  function TrailingPads(s: seq<Byte>): (n: nat)
    ensures n <= |s|
  {
    if s != [] && s[|s| - 1] == PAD then 1 + TrailingPads(s[..|s| - 1]) else 0
  }

  predicate InAlphabet(s: seq<Byte>) { forall i :: 0 <= i < |s| ==> Sym(s[i]) >= 0 }

  function Values(s: seq<Byte>): (vs: seq<Sextet>)
    requires InAlphabet(s)
    ensures |vs| == |s|
  {
    seq(|s|, i requires 0 <= i < |s| => Sym(s[i]))
  }

  /** The bytes of a text without padding, if every character is a symbol and no bit set is left over. */
  function DecodedSymbols(s: seq<Byte>): Option<seq<Byte>> {
    if !InAlphabet(s) then None
    else
      var r := PushAll(EMPTY, Values(s));
      if r.rem != 0 then None else Some(r.out)
  }

  /** What base64_decode_checked returns. */
  function Decoded(s: seq<Byte>): Option<seq<Byte>> {
    var n := |s|;
    var pad := TrailingPads(s);
    if pad > 2 || (pad > 0 && n % 4 != 0) || (n - pad) % 4 == 1 then None
    else DecodedSymbols(s[..n - pad])
  }

  lemma Div4(q: int, r: int)
    requires 0 <= r < 4
    ensures (q * 4 + r) / 4 == q && (q * 4 + r) % 4 == r
  {
  }

  lemma Div16(q: int, r: int)
    requires 0 <= r < 16
    ensures (q * 16 + r) / 16 == q && (q * 16 + r) % 16 == r
  {
  }

  /** The accumulator, which is never masked, holds the left over bits below a multiple of 2^n. */
  predicate Holds(acc: int, k: int, b: Bits) {
    acc == (if b.n == 0 then k else if b.n == 2 then k * 4 else if b.n == 4 then k * 16 else k * 64) + b.rem
  }

  /** `acc << 6 | v` on 32 bits: it wraps, and the wrap only takes away a multiple of the low bits. */
  function Shifted(acc: int, v: Sextet): (r: int)
    ensures 0 <= r < 0x1_0000_0000
  {
    (acc * 64 + v) % 0x1_0000_0000
  }

  /** The byte taken from the wrapped accumulator is the byte of the exact bits, and so is what stays. */
  lemma WrappedPush(acc: int, k: int, b: Bits, v: Sextet) returns (k': int)
    requires b.Ok() && Holds(acc, k, b)
    ensures var r := Push(b, v);
            && Holds(Shifted(acc, v), k', r)
            && (b.n == 0 ==> r.n == 6 && r.out == b.out)
            && (b.n == 2 ==> r.n == 0 && r.out == b.out + [Shifted(acc, v) % 0x100])
            && (b.n == 4 ==> r.n == 2 && r.out == b.out + [Shifted(acc, v) / 4 % 0x100])
            && (b.n == 6 ==> r.n == 4 && r.out == b.out + [Shifted(acc, v) / 16 % 0x100])
  {
    SmallPowers();
    var q := (acc * 64 + v) / 0x1_0000_0000;
    var x := Shifted(acc, v);
    assert x == acc * 64 + v - q * 0x1_0000_0000;
    if b.n == 0 {
      k' := k - q * 0x400_0000;
    } else if b.n == 2 {
      var h := k - q * 0x100_0000;
      Quotient(h, b.rem * 64 + v);
      k' := x;
    } else if b.n == 4 {
      k' := (k - q * 0x40_0000) * 0x100 + (b.rem * 16 + v / 4);
      Div4(k', v % 4);
      Quotient(k - q * 0x40_0000, b.rem * 16 + v / 4);
    } else {
      k' := (k - q * 0x10_0000) * 0x100 + (b.rem * 4 + v / 16);
      Div16(k', v % 16);
      Quotient(k - q * 0x10_0000, b.rem * 4 + v / 16);
    }
  }

  lemma {:induction false} PushAllConcat(b: Bits, vs: seq<Sextet>, ws: seq<Sextet>)
    requires b.Ok()
    ensures PushAll(b, vs + ws) == PushAll(PushAll(b, vs), ws)
    decreases |vs|
  {
    hide Push;
    if vs == [] {
      assert vs + ws == ws;
    } else {
      assert (vs + ws)[1..] == vs[1..] + ws;
      PushAllConcat(Push(b, vs[0]), vs[1..], ws);
    }
  }

  lemma PushLast(s: seq<Byte>, i: nat)
    requires i < |s| && InAlphabet(s[..i + 1])
    ensures InAlphabet(s[..i])
    ensures PushAll(EMPTY, Values(s[..i + 1])) == Push(PushAll(EMPTY, Values(s[..i])), Sym(s[i]))
  {
    hide Push;
    assert forall j :: 0 <= j < i ==> s[..i][j] == s[..i + 1][j];
    var b := PushAll(EMPTY, Values(s[..i]));
    assert Values(s[..i + 1]) == Values(s[..i]) + [Sym(s[i])];
    PushAllConcat(EMPTY, Values(s[..i]), [Sym(s[i])]);
    assert PushAll(Push(b, Sym(s[i])), []) == Push(b, Sym(s[i]));
  }

  /** The bits of the accumulator the final test looks at: those left over. */
  lemma LeftOver(acc: int, k: int, b: Bits)
    requires b.Ok() && Holds(acc, k, b)
    ensures acc % Pow2(b.n) == b.rem
  {
    SmallPowers();
    Div4(k, if b.n == 2 then b.rem else 0);
    Div16(k, if b.n == 4 then b.rem else 0);
    Div64(k, if b.n == 6 then b.rem else 0);
  }

  /** The loop over the symbols, and the test of the bits left over (RFC 4648 section 3.5). */
  method DecodeSymbols(s: seq<Byte>) returns (r: Option<seq<Byte>>)
    ensures r == DecodedSymbols(s)
  {
    hide Push, Shifted, Sym;
    var ret: seq<Byte> := [];
    var acc, accBits := 0, 0;
    ghost var k := 0;
    var i := 0;
    while i < |s|
      invariant 0 <= i <= |s|
      invariant InAlphabet(s[..i])
      invariant var b := PushAll(EMPTY, Values(s[..i]));
                b.out == ret && b.n == accBits && Holds(acc, k, b)
    {
      var v := Sym(s[i]);
      if v == -1 { return None; }
      assert InAlphabet(s[..i + 1]) && v < 64 by { SymRange(s, i); }
      PushLast(s, i);
      k := WrappedPush(acc, k, PushAll(EMPTY, Values(s[..i])), v);
      acc := Shifted(acc, v);
      accBits := accBits + 6;
      if accBits >= 8 {
        accBits := accBits - 8;
        assert accBits == 0 || accBits == 2 || accBits == 4;
        SmallPowers();
        ret := ret + [acc / Pow2(accBits) % 0x100];
      }
      i := i + 1;
    }
    assert s[..i] == s;
    LeftOver(acc, k, PushAll(EMPTY, Values(s)));
    if accBits > 0 && acc % Pow2(accBits) != 0 { return None; }
    SmallPowers();
    r := Some(ret);
  }

  method Base64DecodeChecked(s: seq<Byte>) returns (r: Option<seq<Byte>>)
    ensures r == Decoded(s)
  {
    hide PushAll, Sym, InAlphabet, Values;
    var n := |s|;
    var pad := 0;
    assert s[..n] == s;
    while pad < n && s[n - 1 - pad] == PAD
      invariant 0 <= pad <= n
      invariant TrailingPads(s) == pad + TrailingPads(s[..n - pad])
    {
      assert s[..n - pad][..n - pad - 1] == s[..n - pad - 1];
      pad := pad + 1;
    }
    if pad > 2 { return None; }
    if pad > 0 && n % 4 != 0 { return None; }
    var symbols := n - pad;
    if symbols % 4 == 1 { return None; }

    r := DecodeSymbols(s[..symbols]);
  }

  lemma SymRange(s: seq<Byte>, i: nat)
    requires i < |s| && InAlphabet(s[..i]) && Sym(s[i]) != -1
    ensures 0 <= Sym(s[i]) < 64 && InAlphabet(s[..i + 1])
  {
    forall j | 0 <= j < i + 1
      ensures Sym(s[j]) >= 0
    {
      if j < i { assert s[..i][j] == s[j]; }
    }
  }

  // ----- the decoder accepts exactly the encodings -----

  /** The bits of a byte string that its last symbol leaves over, all zero. */
  function LeftBits(b: seq<Byte>): nat { if |b| % 3 == 0 then 0 else if |b| % 3 == 1 then 4 else 2 }

  /** The three bytes under four symbols. */
  function First(v0: Sextet, v1: Sextet): Byte { (v0 as int) * 4 + High16(v1) }
  function Second(v1: Sextet, v2: Sextet): Byte { Low16(v1) * 16 + High4(v2) }
  function Third(v2: Sextet, v3: Sextet): Byte { Low4(v2) * 64 + v3 }

  lemma UnrollTwo(out: seq<Byte>, v0: Sextet, v1: Sextet)
    ensures PushAll(Bits(out, 0, 0), [v0, v1]) == Bits(out + [First(v0, v1)], Low16(v1), 4)
  {
    hide High4, Low4, High16, Low16;
    SmallPowers();
    var p1 := Push(Bits(out, 0, 0), v0);
    var p2 := Push(p1, v1);
    assert PushAll(Bits(out, 0, 0), [v0, v1]) == PushAll(p1, [v1]) == PushAll(p2, []);
  }

  lemma UnrollOne(b: Bits, v: Sextet)
    requires b.Ok()
    ensures PushAll(b, [v]) == Push(b, v)
  {
    hide Push;
    assert PushAll(b, [v]) == PushAll(Push(b, v), []);
  }

  lemma UnrollThree(out: seq<Byte>, v0: Sextet, v1: Sextet, v2: Sextet)
    ensures PushAll(Bits(out, 0, 0), [v0, v1, v2]) == Bits(out + [First(v0, v1), Second(v1, v2)], Low4(v2), 2)
  {
    hide High4, Low4, High16, Low16, PushAll;
    SmallPowers();
    UnrollTwo(out, v0, v1);
    PushAllConcat(Bits(out, 0, 0), [v0, v1], [v2]);
    assert [v0, v1] + [v2] == [v0, v1, v2];
    UnrollOne(Bits(out + [First(v0, v1)], Low16(v1), 4), v2);
    assert out + [First(v0, v1)] + [Second(v1, v2)] == out + [First(v0, v1), Second(v1, v2)];
  }

  lemma UnrollFour(out: seq<Byte>, v0: Sextet, v1: Sextet, v2: Sextet, v3: Sextet)
    ensures PushAll(Bits(out, 0, 0), [v0, v1, v2, v3])
         == Bits(out + [First(v0, v1), Second(v1, v2), Third(v2, v3)], 0, 0)
  {
    hide High4, Low4, High16, Low16, PushAll, First, Second;
    SmallPowers();
    UnrollThree(out, v0, v1, v2);
    PushAllConcat(Bits(out, 0, 0), [v0, v1, v2], [v3]);
    assert [v0, v1, v2] + [v3] == [v0, v1, v2, v3];
    UnrollOne(Bits(out + [First(v0, v1), Second(v1, v2)], Low4(v2), 2), v3);
    assert out + [First(v0, v1), Second(v1, v2)] + [Third(v2, v3)]
        == out + [First(v0, v1), Second(v1, v2), Third(v2, v3)];
  }

  /** Bytes and symbols are the same bits. */
  lemma FirstBack(b0: Byte, b1: Byte)
    ensures First(Symbol0(b0), Symbol1(b0, b1)) == b0 && Low16(Symbol1(b0, b1)) == b1 / 16
  {
    Div16(b0 % 4, b1 / 16);
  }

  lemma SecondBack(b0: Byte, b1: Byte, b2: Byte)
    ensures Second(Symbol1(b0, b1), Symbol2(b1, b2)) == b1 && Low4(Symbol2(b1, b2)) == b2 / 64
  {
    Div16(b0 % 4, b1 / 16);
    Div4(b1 % 16, b2 / 64);
  }

  lemma ThirdBack(b1: Byte, b2: Byte)
    ensures Third(Symbol2(b1, b2), Symbol3(b2)) == b2
  {
    Div4(b1 % 16, b2 / 64);
  }

  lemma {:induction false} PushSymbols(out: seq<Byte>, b: seq<Byte>)
    ensures PushAll(Bits(out, 0, 0), Symbols(b)) == Bits(out + b, 0, LeftBits(b))
    decreases |b|
  {
    hide Push, PushAll, Symbol0, Symbol1, Symbol2, Symbol3, First, Second, Third, Low16, Low4;
    if |b| == 0 {
      assert out + b == out;
      NothingPushed(Bits(out, 0, 0));
    } else if |b| == 1 {
      UnrollTwo(out, Symbol0(b[0]), Symbol1(b[0], 0));
      FirstBack(b[0], 0);
      assert [b[0]] == b;
    } else if |b| == 2 {
      UnrollThree(out, Symbol0(b[0]), Symbol1(b[0], b[1]), Symbol2(b[1], 0));
      FirstBack(b[0], b[1]);
      SecondBack(b[0], b[1], 0);
      assert [b[0], b[1]] == b;
    } else {
      var head := Group(b[0], b[1], b[2]);
      PushGroup(out, b[0], b[1], b[2]);
      PushAllConcat(Bits(out, 0, 0), head, Symbols(b[3..]));
      PushSymbols(out + [b[0], b[1], b[2]], b[3..]);
      Assoc(out, [b[0], b[1], b[2]], b[3..]);
      assert b == [b[0], b[1], b[2]] + b[3..];
    }
  }

  lemma NothingPushed(b: Bits)
    requires b.Ok()
    ensures PushAll(b, []) == b
  {
  }

  lemma PushGroup(out: seq<Byte>, b0: Byte, b1: Byte, b2: Byte)
    ensures PushAll(Bits(out, 0, 0), Group(b0, b1, b2)) == Bits(out + [b0, b1, b2], 0, 0)
  {
    hide PushAll, Symbol0, Symbol1, Symbol2, Symbol3, First, Second, Third;
    UnrollFour(out, Symbol0(b0), Symbol1(b0, b1), Symbol2(b1, b2), Symbol3(b2));
    FirstBack(b0, b1);
    SecondBack(b0, b1, b2);
    ThirdBack(b1, b2);
  }

  /** A run of symbols that leaves no bit set is the symbols of the bytes it gives. */
  lemma {:induction false} SymbolsBack(out: seq<Byte>, vs: seq<Sextet>) returns (b: seq<Byte>)
    requires |vs| % 4 != 1 && PushAll(Bits(out, 0, 0), vs).rem == 0
    ensures PushAll(Bits(out, 0, 0), vs).out == out + b && Symbols(b) == vs
    decreases |vs|
  {
    hide Push, PushAll, Group, First, Second, Third, Symbol0, Symbol1, Symbol2, Symbol3, Low16, Low4;
    if |vs| == 0 {
      b := [];
      NothingPushed(Bits(out, 0, 0));
      assert out + b == out;
    } else if |vs| == 2 {
      b := [First(vs[0], vs[1])];
      assert vs == [vs[0], vs[1]];
      UnrollTwo(out, vs[0], vs[1]);
      Symbol0Back(vs[0], vs[1]);
    } else if |vs| == 3 {
      b := [First(vs[0], vs[1]), Second(vs[1], vs[2])];
      assert vs == [vs[0], vs[1], vs[2]];
      UnrollThree(out, vs[0], vs[1], vs[2]);
      Symbol0Back(vs[0], vs[1]);
      Symbol1Back(vs[0], vs[1], vs[2]);
    } else {
      b := FourBack(out, vs);
    }
  }

  /** The three bytes of four symbols have those symbols. */
  lemma GroupBack(v0: Sextet, v1: Sextet, v2: Sextet, v3: Sextet)
    ensures Group(First(v0, v1), Second(v1, v2), Third(v2, v3)) == [v0, v1, v2, v3]
  {
    hide First, Second, Third, Symbol0, Symbol1, Symbol2, Symbol3;
    Symbol0Back(v0, v1);
    Symbol1Back(v0, v1, v2);
    Symbol2Back(v1, v2, v3);
    Symbol3Back(v2, v3);
  }

  lemma Symbol0Back(v0: Sextet, v1: Sextet)
    ensures Symbol0(First(v0, v1)) == v0
    ensures Low16(v1) == 0 ==> Symbol1(First(v0, v1), 0) == v1
  {
    Div4(v0, v1 / 16);
  }

  lemma Symbol1Back(v0: Sextet, v1: Sextet, v2: Sextet)
    ensures Symbol1(First(v0, v1), Second(v1, v2)) == v1
    ensures Low4(v2) == 0 ==> Symbol2(Second(v1, v2), 0) == v2
  {
    Div4(v0, v1 / 16);
    Div16(v1 % 16, v2 / 4);
  }

  lemma Symbol2Back(v1: Sextet, v2: Sextet, v3: Sextet)
    ensures Symbol2(Second(v1, v2), Third(v2, v3)) == v2
  {
    Div16(v1 % 16, v2 / 4);
    Div64(v2 % 4, v3);
  }

  lemma Symbol3Back(v2: Sextet, v3: Sextet)
    ensures Symbol3(Third(v2, v3)) == v3
  {
    Div64(v2 % 4, v3);
  }

  lemma FourBack(out: seq<Byte>, vs: seq<Sextet>) returns (b: seq<Byte>)
    requires |vs| >= 4 && |vs| % 4 != 1 && PushAll(Bits(out, 0, 0), vs).rem == 0
    ensures PushAll(Bits(out, 0, 0), vs).out == out + b && Symbols(b) == vs
    decreases |vs|, 0
  {
    hide Push, PushAll, Group, First, Second, Third;
    var b0, b1, b2 := First(vs[0], vs[1]), Second(vs[1], vs[2]), Third(vs[2], vs[3]);
    GroupBack(vs[0], vs[1], vs[2], vs[3]);
    assert vs[..4] == [vs[0], vs[1], vs[2], vs[3]];
    PushGroup(out, b0, b1, b2);
    assert vs == vs[..4] + vs[4..];
    PushAllConcat(Bits(out, 0, 0), vs[..4], vs[4..]);
    var rest := SymbolsBack(out + [b0, b1, b2], vs[4..]);
    b := [b0, b1, b2] + rest;
    Assoc(out, [b0, b1, b2], rest);
    assert b[3..] == rest;
  }

  lemma ValuesOfText(vs: seq<Sextet>)
    ensures InAlphabet(Text(vs)) && Values(Text(vs)) == vs
  {
    forall i | 0 <= i < |vs|
      ensures Sym(Text(vs)[i]) == vs[i]
    {
      SymOfChr(vs[i]);
    }
  }

  lemma TextOfValues(s: seq<Byte>)
    requires InAlphabet(s)
    ensures Text(Values(s)) == s
  {
    forall i | 0 <= i < |s|
      ensures Text(Values(s))[i] == s[i]
    {
      ChrOfSym(s[i]);
    }
  }

  /** Padding after a text without '=' is what TrailingPads counts. */
  lemma {:induction false} PadsCounted(vs: seq<Sextet>, k: nat)
    ensures TrailingPads(Text(vs) + Pads(k)) == k
  {
    var t := Text(vs);
    var s := t + Pads(k);
    if k == 0 {
      assert s == t;
      if vs != [] { assert t[|t| - 1] == Chr(vs[|vs| - 1]); }
    } else {
      Assoc(t, Pads(k - 1), [PAD]);
      assert s[..|s| - 1] == t + Pads(k - 1);
      PadsCounted(vs, k - 1);
    }
  }

  lemma PaddingIsPads(n: nat)
    ensures Pads(|Padding(n)|) == Padding(n)
  {
    assert Pads(1) == [PAD];
  }

  lemma PaddingFits(b: seq<Byte>, k: nat)
    requires k == 0 || k == |Padding(|b|)|
    ensures var n := |Symbols(b)|; k <= 2 && (k > 0 ==> (n + k) % 4 == 0) && n % 4 != 1
  {
    var q, r := |b| / 3, |b| % 3;
    var x := if r == 0 then 0 else r + 1;
    Div4(q, x);
    Div4(q + 1, 0);
    assert |Symbols(b)| == q * 4 + x;
    assert k == 0 || x + k == 4 || (x == 0 && k == 0);
  }

  lemma DecodedUnpadded(b: seq<Byte>)
    ensures DecodedSymbols(Unpadded(b)) == Some(b)
  {
    ValuesOfText(Symbols(b));
    PushSymbols([], b);
    hide Push, PushAll, Sym, Chr, Text, Symbols, Values, InAlphabet;
    assert [] + b == b;
  }

  lemma DecodedPadded(b: seq<Byte>, k: nat)
    requires k == 0 || k == |Padding(|b|)|
    ensures Decoded(Unpadded(b) + Pads(k)) == Some(b)
  {
    PaddingFits(b, k);
    PadsCounted(Symbols(b), k);
    DecodedUnpadded(b);
    hide Text, Symbols, TrailingPads, Pads, DecodedSymbols, Padding;
    var s := Unpadded(b) + Pads(k);
    assert s[..|s| - k] == Unpadded(b);
  }

  /** decode(encode(b)) == b, with the padding and with all of it removed. */
  lemma DecodeInvertsEncode(b: seq<Byte>)
    ensures Decoded(Encoded(b)) == Some(b)
    ensures Decoded(Unpadded(b)) == Some(b)
  {
    DecodedPadded(b, |Padding(|b|)|);
    PaddingIsPads(|b|);
    DecodedPadded(b, 0);
    assert Unpadded(b) + Pads(0) == Unpadded(b);
  }

  lemma {:induction false} PadsSplit(s: seq<Byte>)
    ensures s == s[..|s| - TrailingPads(s)] + Pads(TrailingPads(s))
  {
    if TrailingPads(s) > 0 {
      var t := s[..|s| - 1];
      PadsSplit(t);
      assert t[..|t| - TrailingPads(t)] == s[..|s| - TrailingPads(s)];
      Assoc(s[..|s| - TrailingPads(s)], Pads(TrailingPads(t)), [PAD]);
    }
  }

  /** Whatever is accepted is the encoding of what comes out, or that encoding without its padding. */
  lemma AcceptedIsEncoding(s: seq<Byte>)
    requires Decoded(s).Some?
    ensures s == Encoded(Decoded(s).value) || s == Unpadded(Decoded(s).value)
  {
    hide Push, PushAll, Sym, Chr, Text, Symbols, TrailingPads, Pads, Values, InAlphabet;
    var pad := TrailingPads(s);
    var t := s[..|s| - pad];
    PadsSplit(s);
    TextOfValues(t);
    var b := SymbolsBack([], Values(t));
    assert [] + b == b;
    assert Unpadded(b) == t;
    if pad == 0 {
      assert s == t;
    } else {
      assert pad == |Padding(|b|)|;
      PaddingIsPads(|b|);
    }
  }

  /** The decoder accepts exactly the encodings and the encodings with all padding removed. */
  lemma AcceptedExactly(s: seq<Byte>)
    ensures Decoded(s).Some? <==> exists b :: s == Encoded(b) || s == Unpadded(b)
  {
    hide Encoded, Unpadded, Decoded;
    if Decoded(s).Some? { AcceptedIsEncoding(s); }
    if b :| s == Encoded(b) || s == Unpadded(b) { DecodeInvertsEncode(b); }
  }

  // ----- what RFC 4648 says of the text, section 4 -----

  /** Bytes as the characters they are in ASCII. */
  function Shown(s: seq<Byte>): (t: string)
    ensures |t| == |s|
  {
    seq(|s|, i requires 0 <= i < |s| => s[i] as char)
  }

  /** Table 1: its three ranges from end to end, each in the order of ASCII, and the two signs after them. */
  lemma AlphabetIs(v: Sextet)
    ensures Shown(Text([0, 25, 26, 51, 52, 61, 62, 63])) == "AZaz09+/" && PAD as char == '='
    ensures v !in {25, 51, 61, 62, 63} ==> Chr(v + 1) == Chr(v) + 1
  {
  }

  /** The n low bits of a number, the first bit first. */
  function BitsOf(v: nat, n: nat): (s: seq<bool>)
    ensures |s| == n
  {
    if n == 0 then [] else BitsOf(v / 2, n - 1) + [v % 2 == 1]
  }

  function ByteBits(b: seq<Byte>): seq<bool> { if b == [] then [] else BitsOf(b[0], 8) + ByteBits(b[1..]) }

  function SymbolBits(vs: seq<Sextet>): seq<bool> {
    if vs == [] then [] else BitsOf(vs[0], 6) + SymbolBits(vs[1..])
  }

  /** A number cut at a bit. */
  lemma {:induction false} BitsCut(high: nat, low: nat, n: nat, k: nat)
    requires low < Pow2(k)
    ensures BitsOf(high * Pow2(k) + low, n + k) == BitsOf(high, n) + BitsOf(low, k)
    decreases k
  {
    if k == 0 {
      assert high * Pow2(0) + low == high;
    } else {
      var v := high * Pow2(k) + low;
      var half := high * Pow2(k - 1);
      assert high * Pow2(k) == half * 2;
      assert v / 2 == half + low / 2 && v % 2 == low % 2;
      BitsCut(high, low / 2, n, k - 1);
      Assoc(BitsOf(high, n), BitsOf(low / 2, k - 1), [low % 2 == 1]);
    }
  }

  lemma CutByte(b: Byte)
    ensures BitsOf(b, 8) == BitsOf(b / 4, 6) + BitsOf(b % 4, 2)
    ensures BitsOf(b, 8) == BitsOf(b / 16, 4) + BitsOf(b % 16, 4)
    ensures BitsOf(b, 8) == BitsOf(b / 64, 2) + BitsOf(b % 64, 6)
  {
    SmallPowers();
    BitsCut(b / 4, b % 4, 6, 2);
    BitsCut(b / 16, b % 16, 4, 4);
    BitsCut(b / 64, b % 64, 2, 6);
  }

  lemma JoinSymbols(b0: Byte, b1: Byte, b2: Byte)
    ensures BitsOf(Symbol1(b0, b1), 6) == BitsOf(b0 % 4, 2) + BitsOf(b1 / 16, 4)
    ensures BitsOf(Symbol2(b1, b2), 6) == BitsOf(b1 % 16, 4) + BitsOf(b2 / 64, 2)
  {
    hide BitsOf;
    SmallPowers();
    BitsCut(b0 % 4, b1 / 16, 2, 4);
    BitsCut(b1 % 16, b2 / 64, 4, 2);
  }

  lemma GroupBits(b0: Byte, b1: Byte, b2: Byte)
    ensures BitsOf(Symbol0(b0), 6) + BitsOf(Symbol1(b0, b1), 6) + BitsOf(Symbol2(b1, b2), 6) + BitsOf(Symbol3(b2), 6)
         == BitsOf(b0, 8) + BitsOf(b1, 8) + BitsOf(b2, 8)
  {
    CutByte(b0);
    CutByte(b1);
    CutByte(b2);
    JoinSymbols(b0, b1, b2);
    Regroup(BitsOf(b0 / 4, 6), BitsOf(b0 % 4, 2), BitsOf(b1 / 16, 4), BitsOf(b1 % 16, 4), BitsOf(b2 / 64, 2),
            BitsOf(b2 % 64, 6));
  }

  lemma Regroup<T>(a: seq<T>, b: seq<T>, c: seq<T>, d: seq<T>, e: seq<T>, f: seq<T>)
    ensures a + (b + c) + (d + e) + f == (a + b) + (c + d) + (e + f)
  {
  }

  lemma {:induction false} SymbolBitsConcat(vs: seq<Sextet>, ws: seq<Sextet>)
    ensures SymbolBits(vs + ws) == SymbolBits(vs) + SymbolBits(ws)
  {
    if vs == [] {
      assert vs + ws == ws;
    } else {
      assert (vs + ws)[1..] == vs[1..] + ws;
      SymbolBitsConcat(vs[1..], ws);
    }
  }

  lemma OneByte(b: Byte)
    ensures ByteBits([b]) == BitsOf(b, 8)
  {
    assert [b][1..] == [] && ByteBits([]) == [];
  }

  lemma OneSymbol(v: Sextet)
    ensures SymbolBits([v]) == BitsOf(v, 6)
  {
    assert [v][1..] == [] && SymbolBits([]) == [];
  }

  lemma {:induction false} ByteBitsConcat(b: seq<Byte>, c: seq<Byte>)
    ensures ByteBits(b + c) == ByteBits(b) + ByteBits(c)
  {
    if b == [] {
      assert b + c == c;
    } else {
      assert (b + c)[1..] == b[1..] + c;
      ByteBitsConcat(b[1..], c);
    }
  }

  lemma ThreeBytes(b0: Byte, b1: Byte, b2: Byte)
    ensures ByteBits([b0, b1, b2]) == BitsOf(b0, 8) + BitsOf(b1, 8) + BitsOf(b2, 8)
    ensures ByteBits([b0, b1]) == BitsOf(b0, 8) + BitsOf(b1, 8)
  {
    hide BitsOf, ByteBits;
    OneByte(b0);
    OneByte(b1);
    OneByte(b2);
    ByteBitsConcat([b0], [b1]);
    ByteBitsConcat([b0] + [b1], [b2]);
    assert [b0] + [b1] == [b0, b1] && [b0, b1] + [b2] == [b0, b1, b2];
  }

  lemma FourSymbols(v0: Sextet, v1: Sextet, v2: Sextet, v3: Sextet)
    ensures SymbolBits([v0, v1]) == BitsOf(v0, 6) + BitsOf(v1, 6)
    ensures SymbolBits([v0, v1, v2]) == BitsOf(v0, 6) + BitsOf(v1, 6) + BitsOf(v2, 6)
    ensures SymbolBits([v0, v1, v2, v3]) == BitsOf(v0, 6) + BitsOf(v1, 6) + BitsOf(v2, 6) + BitsOf(v3, 6)
  {
    hide BitsOf, SymbolBits;
    OneSymbol(v0);
    OneSymbol(v1);
    OneSymbol(v2);
    OneSymbol(v3);
    SymbolBitsConcat([v0], [v1]);
    SymbolBitsConcat([v0] + [v1], [v2]);
    SymbolBitsConcat([v0] + [v1] + [v2], [v3]);
    assert [v0] + [v1] == [v0, v1] && [v0, v1] + [v2] == [v0, v1, v2];
    assert [v0, v1, v2] + [v3] == [v0, v1, v2, v3];
  }

  function Zeros(n: nat): seq<bool> { seq(n, _ => false) }

  /** The symbols of a rest of one or two bytes, whose bits end with zeros. */
  lemma OneByteLeft(b0: Byte)
    ensures SymbolBits([Symbol0(b0), Symbol1(b0, 0)]) == ByteBits([b0]) + Zeros(4)
  {
    FourSymbols(Symbol0(b0), Symbol1(b0, 0), 0, 0);
    OneByte(b0);
    CutByte(b0);
    JoinSymbols(b0, 0, 0);
    NoBits(4);
    hide BitsOf, ByteBits, SymbolBits, Symbol0, Symbol1, Zeros;
    Assoc(BitsOf(b0 / 4, 6), BitsOf(b0 % 4, 2), BitsOf(0, 4));
  }

  lemma TwoBytesLeft(b0: Byte, b1: Byte)
    ensures SymbolBits([Symbol0(b0), Symbol1(b0, b1), Symbol2(b1, 0)]) == ByteBits([b0, b1]) + Zeros(2)
  {
    FourSymbols(Symbol0(b0), Symbol1(b0, b1), Symbol2(b1, 0), 0);
    ThreeBytes(b0, b1, 0);
    CutByte(b0);
    CutByte(b1);
    JoinSymbols(b0, b1, 0);
    NoBits(2);
    hide BitsOf, ByteBits, SymbolBits, Symbol0, Symbol1, Symbol2, Zeros;
    Regroup(BitsOf(b0 / 4, 6), BitsOf(b0 % 4, 2), BitsOf(b1 / 16, 4), BitsOf(b1 % 16, 4), BitsOf(0, 2), []);
  }

  lemma NoBits(n: nat)
    ensures BitsOf(0, n) == Zeros(n)
  {
  }

  /** The symbols are the bits of the bytes, the first bit first, six by six, with zeros to fill the last one. */
  lemma {:induction false} BitsAreKept(b: seq<Byte>)
    ensures SymbolBits(Symbols(b)) == ByteBits(b) + Zeros(LeftBits(b))
    decreases |b|
  {
    hide BitsOf, ByteBits, SymbolBits, Symbol0, Symbol1, Symbol2, Symbol3, Group, Zeros;
    if |b| == 0 {
      NoBitsAtAll();
    } else if |b| == 1 {
      assert b == [b[0]];
      OneByteLeft(b[0]);
    } else if |b| == 2 {
      assert b == [b[0], b[1]];
      TwoBytesLeft(b[0], b[1]);
    } else {
      var head, rest := [b[0], b[1], b[2]], b[3..];
      BitsAreKept(rest);
      SymbolsTail(b);
      SameBits(b[0], b[1], b[2]);
      SymbolBitsConcat(Group(b[0], b[1], b[2]), Symbols(rest));
      HeadAnd(b);
      ByteBitsConcat(head, rest);
      Assoc(ByteBits(head), ByteBits(rest), Zeros(LeftBits(rest)));
    }
  }

  lemma HeadAnd(b: seq<Byte>)
    requires |b| >= 3
    ensures b == [b[0], b[1], b[2]] + b[3..] && LeftBits(b) == LeftBits(b[3..])
  {
  }

  lemma SymbolsTail(b: seq<Byte>)
    requires |b| >= 3
    ensures Symbols(b) == Group(b[0], b[1], b[2]) + Symbols(b[3..])
  {
  }

  lemma SameBits(b0: Byte, b1: Byte, b2: Byte)
    ensures SymbolBits(Group(b0, b1, b2)) == ByteBits([b0, b1, b2])
  {
    hide BitsOf, ByteBits, SymbolBits, Symbol0, Symbol1, Symbol2, Symbol3;
    GroupBits(b0, b1, b2);
    ThreeBytes(b0, b1, b2);
    FourSymbols(Symbol0(b0), Symbol1(b0, b1), Symbol2(b1, b2), Symbol3(b2));
  }

  /** The padding makes the length of the text a multiple of four. */
  lemma PaddingIs(b: seq<Byte>)
    ensures |Encoded(b)| % 4 == 0 && |Padding(|b|)| <= 2 && forall c <- Padding(|b|) :: c == PAD
  {
  }

  lemma NoBitsAtAll()
    ensures ByteBits([]) == [] && SymbolBits([]) == [] && Zeros(0) == []
  {
  }

  lemma FooAnd(rest: seq<Byte>)
    ensures Encoded([102, 111, 111] + rest) == [90, 109, 57, 118] + Encoded(rest)
  {
    var b := [102, 111, 111] + rest;
    assert b[3..] == rest && Group(102, 111, 111) == [25, 38, 61, 47];
    EncodedTail(b);
    hide Encoded;
    assert Text([25, 38, 61, 47]) == [90, 109, 57, 118];
  }

  lemma BarIs()
    ensures Encoded([98]) == [89, 103, 61, 61] && Encoded([98, 97]) == [89, 109, 69, 61]
    ensures Encoded([98, 97, 114]) == [89, 109, 70, 121]
  {
    EncodedRest([98]);
    EncodedRest([98, 97]);
    EncodedTail([98, 97, 114]);
    EncodedEmpty([98, 97, 114][3..]);
    hide Encoded;
    assert Group(98, 0, 0)[..2] == [24, 32] && Group(98, 97, 0)[..3] == [24, 38, 4];
    assert Group(98, 97, 114) == [24, 38, 5, 50];
    assert Text([24, 32]) == [89, 103] && Text([24, 38, 4]) == [89, 109, 69];
    assert Text([24, 38, 5, 50]) == [89, 109, 70, 121];
  }

  /** Vectors of section 10. */
  lemma Foob(b: seq<Byte>)
    requires Shown(b) == "foob"
    ensures Shown(Encoded(b)) == "Zm9vYg=="
  {
    Unshown(b, [102, 111, 111] + [98]);
    FooAnd([98]);
    BarIs();
    hide Encoded;
  }

  lemma Fooba(b: seq<Byte>)
    requires Shown(b) == "fooba"
    ensures Shown(Encoded(b)) == "Zm9vYmE="
  {
    Unshown(b, [102, 111, 111] + [98, 97]);
    FooAnd([98, 97]);
    BarIs();
    hide Encoded;
  }

  lemma Foobar(b: seq<Byte>)
    requires Shown(b) == "foobar"
    ensures Shown(Encoded(b)) == "Zm9vYmFy"
  {
    Unshown(b, [102, 111, 111] + [98, 97, 114]);
    FooAnd([98, 97, 114]);
    BarIs();
    hide Encoded;
  }

  lemma Unshown(b: seq<Byte>, c: seq<Byte>)
    requires Shown(b) == Shown(c)
    ensures b == c
  {
    forall i | 0 <= i < |b|
      ensures b[i] == c[i]
    {
      assert Shown(b)[i] == Shown(c)[i];
    }
  }
}
