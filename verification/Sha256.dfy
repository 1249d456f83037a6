/** SHA-256: the block-wise implementation refines padding (FIPS 180-4, section 5.1.1) followed by the
    fold of the compression function over the blocks (section 6.2.2). */
module Sha256 {
  import opened Words

  // ---- Section 4.1.2: functions ----

  function Rotr(x: Word, n: nat): Word
    requires 0 < n < 32
  {
    Or(Shr(x, n), Shl(x, 32 - n))
  }

  function Xor3(x: Word, y: Word, z: Word): Word { Xor(Xor(x, y), z) }

  function Ch(x: Word, y: Word, z: Word): Word { Xor(And(x, y), And(Not(x), z)) }

  function Maj(x: Word, y: Word, z: Word): Word { Xor3(And(x, y), And(x, z), And(y, z)) }

  function BigSigma0(x: Word): Word { Xor3(Rotr(x, 2), Rotr(x, 13), Rotr(x, 22)) }

  function BigSigma1(x: Word): Word { Xor3(Rotr(x, 6), Rotr(x, 11), Rotr(x, 25)) }

  function SmallSigma0(x: Word): Word { Xor3(Rotr(x, 7), Rotr(x, 18), Shr(x, 3)) }

  function SmallSigma1(x: Word): Word { Xor3(Rotr(x, 17), Rotr(x, 19), Shr(x, 10)) }

  // ---- Sections 4.2.2 and 5.3.3: constants ----

  const K: seq<Word> :=
    [0x428a2f98, 0x71374491, 0xb5c0fbcf, 0xe9b5dba5, 0x3956c25b, 0x59f111f1, 0x923f82a4, 0xab1c5ed5] +
    [0xd807aa98, 0x12835b01, 0x243185be, 0x550c7dc3, 0x72be5d74, 0x80deb1fe, 0x9bdc06a7, 0xc19bf174] +
    [0xe49b69c1, 0xefbe4786, 0x0fc19dc6, 0x240ca1cc, 0x2de92c6f, 0x4a7484aa, 0x5cb0a9dc, 0x76f988da] +
    [0x983e5152, 0xa831c66d, 0xb00327c8, 0xbf597fc7, 0xc6e00bf3, 0xd5a79147, 0x06ca6351, 0x14292967] +
    [0x27b70a85, 0x2e1b2138, 0x4d2c6dfc, 0x53380d13, 0x650a7354, 0x766a0abb, 0x81c2c92e, 0x92722c85] +
    [0xa2bfe8a1, 0xa81a664b, 0xc24b8b70, 0xc76c51a3, 0xd192e819, 0xd6990624, 0xf40e3585, 0x106aa070] +
    [0x19a4c116, 0x1e376c08, 0x2748774c, 0x34b0bcb5, 0x391c0cb3, 0x4ed8aa4a, 0x5b9cca4f, 0x682e6ff3] +
    [0x748f82ee, 0x78a5636f, 0x84c87814, 0x8cc70208, 0x90befffa, 0xa4506ceb, 0xbef9a3f7, 0xc67178f2]

  const H0: seq<Word> := [
    0x6a09e667, 0xbb67ae85, 0x3c6ef372, 0xa54ff53a, 0x510e527f, 0x9b05688c, 0x1f83d9ab, 0x5be0cd19]

  // ---- Section 6.2.2: one block ----

  /** A big-endian number. */
  function Value(bytes: seq<Byte>): nat {
    if bytes == [] then 0 else 256 * Value(bytes[..|bytes| - 1]) + bytes[|bytes| - 1]
  }

  /** Four bytes shifted into place and or-ed together. */
  function Packed(p: Byte, q: Byte, r: Byte, s: Byte): Word {
    Or(Or(Or(Shl(p, 24), Shl(q, 16)), Shl(r, 8)), s)
  }

  type Block = b: seq<Byte> | |b| == 64 witness seq(64, _ => 0)

  function WordAt(block: Block, j: nat): Word
    requires j < 16
  {
    Packed(block[4 * j], block[4 * j + 1], block[4 * j + 2], block[4 * j + 3])
  }

  /** The message schedule. */
  function Schedule(block: Block, t: nat): Word
    requires t < 64
  {
    if t < 16 then WordAt(block, t)
    else Add(Add(Add(SmallSigma1(Schedule(block, t - 2)), Schedule(block, t - 7)), SmallSigma0(Schedule(block, t - 15))),
             Schedule(block, t - 16))
  }

  /** The working variables, also used for the eight words of the hash value. */
  datatype Vars = Vars(a: Word, b: Word, c: Word, d: Word, e: Word, f: Word, g: Word, h: Word)

  function Round(v: Vars, k: Word, w: Word): Vars {
    var t1 := Add(Add(Add(Add(v.h, BigSigma1(v.e)), Ch(v.e, v.f, v.g)), k), w);
    var t2 := Add(BigSigma0(v.a), Maj(v.a, v.b, v.c));
    Vars(Add(t1, t2), v.a, v.b, v.c, Add(v.d, t1), v.e, v.f, v.g)
  }

  function Rounds(v: Vars, block: Block, n: nat): Vars
    requires n <= 64
  {
    if n == 0 then v else Round(Rounds(v, block, n - 1), K[n - 1], Schedule(block, n - 1))
  }

  type Hash = s: seq<Word> | |s| == 8 witness seq(8, _ => 0)

  function VarsOf(s: Hash): Vars {
    Vars(s[0], s[1], s[2], s[3], s[4], s[5], s[6], s[7])
  }

  function Compress(s: Hash, block: Block): Hash {
    hide Rounds;
    var v := Rounds(VarsOf(s), block, 64);
    [Add(s[0], v.a), Add(s[1], v.b), Add(s[2], v.c), Add(s[3], v.d),
     Add(s[4], v.e), Add(s[5], v.f), Add(s[6], v.g), Add(s[7], v.h)]
  }

  // ---- The implementation: one block, in place ----

  method Transform(state: array<Word>, block: Block)
    requires state.Length == 8
    modifies state
    ensures state[..] == Compress(old(state[..]), block)
  {
    hide Add, Ch, Maj, BigSigma0, BigSigma1, Schedule;
    var w := FillSchedule(block);
    var a, b, c, d := state[0], state[1], state[2], state[3];
    var e, f, g, h := state[4], state[5], state[6], state[7];
    ghost var start := VarsOf(state[..]);
    for i := 0 to 64
      invariant state[..] == old(state[..])
      invariant Vars(a, b, c, d, e, f, g, h) == Rounds(start, block, i)
    {
      var t1 := Add(Add(Add(Add(h, BigSigma1(e)), Ch(e, f, g)), K[i]), w[i]);
      var t2 := Add(BigSigma0(a), Maj(a, b, c));
      h := g;
      g := f;
      f := e;
      e := Add(d, t1);
      d := c;
      c := b;
      b := a;
      a := Add(t1, t2);
    }
    state[0], state[1], state[2], state[3] := Add(state[0], a), Add(state[1], b), Add(state[2], c), Add(state[3], d);
    state[4], state[5], state[6], state[7] := Add(state[4], e), Add(state[5], f), Add(state[6], g), Add(state[7], h);
  }

  method FillSchedule(block: Block) returns (w: array<Word>)
    ensures fresh(w) && w.Length == 64 && forall t :: 0 <= t < 64 ==> w[t] == Schedule(block, t)
  {
    hide Packed, SmallSigma0, SmallSigma1, Add;
    w := new Word[64];
    for i := 0 to 16
      invariant forall t :: 0 <= t < i ==> w[t] == Schedule(block, t)
    {
      w[i] := Packed(block[i * 4], block[i * 4 + 1], block[i * 4 + 2], block[i * 4 + 3]);
    }
    for i := 16 to 64
      invariant forall t :: 0 <= t < i ==> w[t] == Schedule(block, t)
    {
      var s0 := SmallSigma0(w[i - 15]);
      var s1 := SmallSigma1(w[i - 2]);
      w[i] := Add(Add(Add(w[i - 16], s0), w[i - 7]), s1);
      AddInAnyOrder(w[i - 16], s0, w[i - 7], s1);
    }
  }

  lemma AddInAnyOrder(p: Word, q: Word, r: Word, s: Word)
    ensures Add(Add(Add(p, q), r), s) == Add(Add(Add(s, r), q), p)
  {
    AddThree(p, q, r);
    AddThree(s, r, q);
    AddCarries(p + q + r, s);
    AddCarries(s + r + q, p);
  }

  lemma AddThree(p: Word, q: Word, r: Word)
    ensures Add(Add(p, q), r) == (p + q + r) % TWO32
  {
    AddCarries(p + q, r);
  }

  lemma AddCarries(x: nat, y: nat)
    ensures (x % TWO32 + y) % TWO32 == (x + y) % TWO32
  {
  }

  /** Packing reads four bytes as one big-endian number. */
  lemma PackedIsBigEndian(p: Byte, q: Byte, r: Byte, s: Byte)
    ensures Packed(p, q, r, s) == Value([p, q, r, s])
  {
    hide Raise, Pow2, Bits, Value;
    WordRange();
    RaiseIsMultiply(p);
    RaiseIsMultiply(q);
    RaiseIsMultiply(r);
    var two := 256 * p + q;
    DisjIsSum(p, Raise(q, 16), 24);
    RaiseIsMultiply(two);
    DisjIsSum(two, Raise(r, 8), 16);
    var three := 256 * two + r;
    RaiseIsMultiply(three);
    DisjIsSum(three, s, 8);
    ValueOfFour(p, q, r, s);
  }

  lemma ValueOfFour(p: Byte, q: Byte, r: Byte, s: Byte)
    ensures Value([p, q, r, s]) == 256 * (256 * (256 * p + q) + r) + s
  {
    ValueOfLast([], p);
    ValueOfLast([p], q);
    ValueOfLast([p, q], r);
    ValueOfLast([p, q, r], s);
    assert [] + [p] == [p] && [p] + [q] == [p, q] && [p, q] + [r] == [p, q, r] && [p, q, r] + [s] == [p, q, r, s];
  }

  lemma ValueOfLast(s: seq<Byte>, b: Byte)
    ensures Value(s + [b]) == 256 * Value(s) + b
  {
    assert (s + [b])[..|s + [b]| - 1] == s;
  }

  // ---- Section 5.1.1: padding ----

  function Zeros(n: nat): seq<Byte> { seq(n, _ => 0) }

  /** n as k big-endian bytes, modulo 256^k. */
  function BigEndian(n: nat, k: nat): (r: seq<Byte>)
    ensures |r| == k
  {
    if k == 0 then [] else BigEndian(n / 256, k - 1) + [n % 256]
  }

  /** How many zero bytes follow the 0x80 byte: the rest of the block up to its last eight bytes. */
  function PadZeros(len: nat): (z: nat)
    ensures z < 64
  {
    (119 - len % 64) % 64
  }

  function Padded(m: seq<Byte>): seq<Byte> {
    m + [0x80] + Zeros(PadZeros(|m|)) + BigEndian(8 * |m|, 8)
  }

  /** The standard's own characterisation of the padding: it is the shortest that makes length plus
      marker plus zeros congruent to 448 modulo 512 bits, and the whole is made of 512-bit blocks. */
  lemma PaddingIsMinimal(m: seq<Byte>)
    ensures (8 * |m| + 8 + 8 * PadZeros(|m|)) % 512 == 448
    ensures forall z: nat :: z < PadZeros(|m|) ==> (8 * |m| + 8 + 8 * z) % 512 != 448
    ensures |Padded(m)| % 64 == 0 && m <= Padded(m)
  {
    hide PadZeros, BigEndian;
    PadArithmetic(|m|, PadZeros(|m|));
    forall z: nat | z < PadZeros(|m|)
      ensures (8 * |m| + 8 + 8 * z) % 512 != 448
    {
      PadArithmetic(|m|, z);
    }
  }

  lemma PadArithmetic(len: nat, z: nat)
    requires z < 64
    ensures (8 * len + 8 + 8 * z) % 512 == 448 <==> z == PadZeros(len)
    ensures (8 * len + 8 + 8 * z) % 512 == 448 <==> (len + 1 + z) % 64 == 56
  {
    hide PadZeros;
    var q, r := len / 64, len % 64;
    PadZerosIs(len, r);
    if r + 1 + z < 64 {
      BlockRemainder(len + 1 + z, q, r + 1 + z);
    } else {
      BlockRemainder(len + 1 + z, q + 1, r + 1 + z - 64);
    }
  }

  lemma PadZerosIs(len: nat, r: nat)
    requires r == len % 64
    ensures PadZeros(len) == if r <= 55 then 55 - r else 119 - r
  {
  }

  lemma BlockRemainder(x: nat, q: nat, r: nat)
    requires x == 64 * q + r && r < 64
    ensures x % 64 == r && (8 * x) % 512 == 8 * r
  {
  }

  function Pow256(k: nat): nat { if k == 0 then 1 else 256 * Pow256(k - 1) }

  /** The length field can be read back. */
  lemma {:induction false} BigEndianValue(n: nat, k: nat)
    requires n < Pow256(k)
    ensures Value(BigEndian(n, k)) == n
    decreases k
  {
    if k > 0 {
      BigEndianValue(n / 256, k - 1);
      ValueOfLast(BigEndian(n / 256, k - 1), n % 256);
    }
  }

  /** Padding loses nothing: below 2^61 bytes, messages with equal paddings are equal. */
  lemma PaddingIsInjective(m: seq<Byte>, n: seq<Byte>)
    requires |m| < 0x2000_0000_0000_0000 && |n| < 0x2000_0000_0000_0000
    requires Padded(m) == Padded(n)
    ensures m == n
  {
    hide Value;
    var p, q := Padded(m), Padded(n);
    assert p[|p| - 8..] == BigEndian(8 * |m|, 8);
    assert q[|q| - 8..] == BigEndian(8 * |n|, 8);
    LengthFits();
    BigEndianValue(8 * |m|, 8);
    BigEndianValue(8 * |n|, 8);
    assert p[..|m|] == m && q[..|n|] == n;
  }

  lemma LengthFits()
    ensures Pow256(8) == 0x1_0000_0000_0000_0000
  {
    assert Pow256(2) == 0x1_0000 && Pow256(4) == 0x1_0000 * Pow256(2);
    assert Pow256(6) == 0x1_0000 * Pow256(4);
  }

  /** The fold over the blocks. */
  function Fold<S>(step: (S, Block) -> S, s: S, m: seq<Byte>): S
    requires |m| % 64 == 0
    decreases |m|
  {
    if m == [] then s else Fold(step, step(s, m[..64]), m[64..])
  }

  lemma {:induction false} FoldCat<S>(step: (S, Block) -> S, s: S, m: seq<Byte>, n: seq<Byte>)
    requires |m| % 64 == 0 && |n| % 64 == 0
    ensures |m + n| % 64 == 0 && Fold(step, s, m + n) == Fold(step, Fold(step, s, m), n)
    decreases |m|
  {
    if m == [] {
      assert m + n == n;
    } else {
      assert (m + n)[..64] == m[..64] && (m + n)[64..] == m[64..] + n;
      FoldCat(step, step(s, m[..64]), m[64..], n);
    }
  }

  lemma FoldOneMore<S>(step: (S, Block) -> S, s: S, m: seq<Byte>, block: Block)
    requires |m| % 64 == 0
    ensures |m + block| % 64 == 0 && Fold(step, s, m + block) == step(Fold(step, s, m), block)
  {
    FoldCat(step, s, m, block);
    assert block[..64] == block && block[64..] == [];
  }

  /** The hash value that the standard defines for a message. */
  function HashOf(m: seq<Byte>): Hash {
    PaddingIsMinimal(m);
    Fold<Hash>(Compress, H0, Padded(m))
  }

  // ---- The implementation: the tail and the whole message ----

  /** The byte that the source writes b places from the end: the length shifted and masked. */
  function LengthByte(n: nat, b: nat): nat { Bits(Conj, Shr(n, 8 * b), 0xff) }

  lemma {:induction false} BigEndianDigit(n: nat, k: nat, b: nat)
    requires b < k
    ensures BigEndian(n, k)[k - 1 - b] == LengthByte(n, b)
    decreases k
  {
    hide Bits;
    ByteSplits(n);
    if b > 0 {
      BigEndianDigit(n / 256, k - 1, b - 1);
      ShrTwice(n, 8, 8 * (b - 1));
    }
  }

  /** What is left of the message, the marker, zeros, and the 64-bit length. */
  method FillTail(m: seq<Byte>, i: nat) returns (tail: array<Byte>, tailLen: nat)
    requires |m| < 0x2000_0000_0000_0000 && i <= |m| < i + 64 && i % 64 == 0
    ensures fresh(tail) && tail.Length == 128 && (tailLen == 64 || tailLen == 128)
    ensures m[..i] + tail[..tailLen] == Padded(m)
  {
    hide LengthByte, Padded;
    tail := new Byte[128](_ => 0);
    var rem := |m| - i;
    for k := 0 to rem
      invariant forall j :: 0 <= j < k ==> tail[j] == m[i + j]
      invariant forall j :: k <= j < 128 ==> tail[j] == 0
    {
      tail[k] := m[i + k];
    }
    tail[rem] := 0x80;
    tailLen := if rem < 56 then 64 else 128;
    var bitLen := (|m| * 8) % 0x1_0000_0000_0000_0000;
    for b := 0 to 8
      invariant forall j :: 0 <= j < rem ==> tail[j] == m[i + j]
      invariant tail[rem] == 0x80
      invariant forall j :: rem < j < tailLen - b ==> tail[j] == 0
      invariant forall j :: 0 <= j < b ==> tail[tailLen - 1 - j] == LengthByte(bitLen, j)
    {
      LengthByteFits(bitLen, b);
      tail[tailLen - 1 - b] := LengthByte(bitLen, b);
    }
    TailIsPadding(m, i, tail[..tailLen]);
  }

  lemma LengthByteFits(n: nat, b: nat)
    ensures LengthByte(n, b) < 256
  {
    hide Bits;
    ByteSplits(Shr(n, 8 * b));
  }

  lemma TailIsPadding(m: seq<Byte>, i: nat, tail: seq<Byte>)
    requires |m| < 0x2000_0000_0000_0000 && i <= |m| < i + 64 && i % 64 == 0
    requires |tail| == if |m| - i < 56 then 64 else 128
    requires forall j :: 0 <= j < |m| - i ==> tail[j] == m[i + j]
    requires tail[|m| - i] == 0x80
    requires forall j :: |m| - i < j < |tail| - 8 ==> tail[j] == 0
    requires forall j :: 0 <= j < 8 ==> tail[|tail| - 1 - j] == LengthByte(8 * |m|, j)
    ensures m[..i] + tail == Padded(m)
  {
    hide LengthByte, BigEndian;
    var rem, p := |m| - i, Padded(m);
    assert |m| % 64 == rem by { assert |m| == i + rem; }
    assert PadZeros(|m|) == |tail| - 9 - rem;
    assert |p| == i + |tail|;
    forall j | 0 <= j < |p|
      ensures p[j] == (m[..i] + tail)[j]
    {
      if j >= |p| - 8 {
        var b := |p| - 1 - j;
        BigEndianDigit(8 * |m|, 8, b);
        assert p[j] == BigEndian(8 * |m|, 8)[7 - b];
        assert tail[|tail| - 1 - b] == LengthByte(8 * |m|, b);
      }
    }
  }

  /** The hash value of a message. */
  method Digest(m: seq<Byte>) returns (state: array<Word>)
    requires |m| < 0x2000_0000_0000_0000
    ensures fresh(state) && state.Length == 8 && state[..] == HashOf(m)
  {
    hide Compress, Padded, Fold;
    state := new Word[8](j requires 0 <= j < 8 => H0[j]);
    var i := 0;
    FoldNothing(H0);
    assert state[..] == H0 && m[..0] == [];
    while i + 64 <= |m|
      invariant 0 <= i <= |m| && i % 64 == 0
      invariant fresh(state) && state.Length == 8 && state[..] == Fold<Hash>(Compress, H0, m[..i])
    {
      FoldOneMore<Hash>(Compress, H0, m[..i], m[i..i + 64]);
      assert m[..i + 64] == m[..i] + m[i..i + 64];
      Transform(state, m[i..i + 64]);
      i := i + 64;
    }
    var tail, tailLen := FillTail(m, i);
    FoldOneMore<Hash>(Compress, H0, m[..i], tail[..64]);
    Transform(state, tail[..64]);
    if tailLen == 128 {
      FoldOneMore<Hash>(Compress, H0, m[..i] + tail[..64], tail[64..128]);
      assert m[..i] + tail[..128] == m[..i] + tail[..64] + tail[64..128];
      Transform(state, tail[64..128]);
    }
  }

  lemma FoldNothing(s: Hash)
    ensures Fold<Hash>(Compress, s, []) == s
  {
  }

  // ---- Hexadecimal ----

  const HEX := "0123456789abcdef"

  /** The 256-bit number that eight words, or 64 hex digits, spell. */
  function Number(words: seq<Word>): nat {
    if words == [] then 0 else TWO32 * Number(words[..|words| - 1]) + words[|words| - 1]
  }

  function DigitValue(c: char): nat {
    if '0' <= c <= '9' then c as int - '0' as int
    else if 'a' <= c <= 'f' then c as int - 'a' as int + 10
    else 0
  }

  function HexValue(s: string): nat {
    if s == "" then 0 else 16 * HexValue(s[..|s| - 1]) + DigitValue(s[|s| - 1])
  }

  lemma HexLast(s: string, d: nat)
    requires d < 16
    ensures HexValue(s + [HEX[d]]) == 16 * HexValue(s) + d
  {
    assert (s + [HEX[d]])[..|s|] == s;
    assert DigitValue(HEX[d]) == d;
  }

  predicate AllHex(s: string) { forall j :: 0 <= j < |s| ==> s[j] in HEX }

  /** One byte further: what has been spelled so far, shifted, plus the next byte. */
  lemma NextByte(v: nat, w: Word, b: nat)
    requires b < 4
    ensures Raise(v, 32 - 8 * b) + Shr(w, 8 * b)
         == 256 * (Raise(v, 24 - 8 * b) + Shr(w, 8 * (b + 1))) + Shr(w, 8 * b) % 256
  {
    hide Shr, Raise;
    RaiseByte(v, 24 - 8 * b);
    ShrTwice(w, 8 * b, 8);
    ByteSplits(Shr(w, 8 * b));
  }

  lemma WholeWord(v: nat, w: Word)
    ensures Raise(v, 0) + Shr(w, 32) == v && Raise(v, 32) + Shr(w, 0) == TWO32 * v + w
  {
    WordRange();
    ShrOut(w, 32);
    RaiseIsMultiply(v);
    RaiseByte(v, 24);
  }

  /** The four bytes of a word, most significant first, each as two digits. */
  method AppendWord(prefix: string, w: Word) returns (out: string)
    requires AllHex(prefix)
    ensures |out| == |prefix| + 8 && AllHex(out)
    ensures HexValue(out) == TWO32 * HexValue(prefix) + w
  {
    hide HexValue, Bits, Shr, Raise;
    out := prefix;
    ghost var v := HexValue(prefix);
    WholeWord(v, w);
    for b := 4 downto 0
      invariant |out| == |prefix| + 8 - 2 * b && AllHex(out)
      invariant HexValue(out) == Raise(v, 32 - 8 * b) + Shr(w, 8 * b)
    {
      NextByte(v, w, b);
      ByteSplits(Shr(w, 8 * b));
      out := AppendByte(out, Bits(Conj, Shr(w, 8 * b), 0xff));
    }
  }

  method AppendByte(prefix: string, byte: Byte) returns (out: string)
    requires AllHex(prefix)
    ensures |out| == |prefix| + 2 && AllHex(out)
    ensures HexValue(out) == 256 * HexValue(prefix) + byte
  {
    hide HexValue, Bits, Shr;
    NibbleSplits(byte);
    out := prefix + [HEX[Shr(byte, 4)]];
    HexLast(prefix, Shr(byte, 4));
    HexLast(out, Bits(Conj, byte, 0xf));
    out := out + [HEX[Bits(Conj, byte, 0xf)]];
  }

  /** The digest as text: 64 lower-case hex digits that spell the hash value of the padded message. */
  method Sha256Hex(m: seq<Byte>) returns (out: string)
    requires |m| < 0x2000_0000_0000_0000
    ensures |out| == 64 && AllHex(out)
    ensures HexValue(out) == Number(HashOf(m))
  {
    hide HexValue, HashOf;
    var state := Digest(m);
    ghost var hash := state[..];
    out := "";
    EmptyNumbers();
    assert hash[..0] == [];
    for s := 0 to 8
      invariant state[..] == hash && |out| == 8 * s && AllHex(out) && HexValue(out) == Number(hash[..s])
    {
      out := AppendWord(out, state[s]);
      NumberLast(hash[..s], hash[s]);
      assert hash[..s + 1] == hash[..s] + [hash[s]];
    }
    assert hash[..8] == hash;
  }

  lemma EmptyNumbers()
    ensures HexValue("") == 0 && Number([]) == 0
  {
  }

  lemma NumberLast(words: seq<Word>, w: Word)
    ensures Number(words + [w]) == TWO32 * Number(words) + w
  {
    assert (words + [w])[..|words + [w]| - 1] == words;
  }

  /** Nothing is lost in the text: 64 such digits spell one number only. */
  lemma {:induction false} HexIsInjective(s: string, t: string)
    requires |s| == |t| && AllHex(s) && AllHex(t) && HexValue(s) == HexValue(t)
    ensures s == t
  {
    hide HexValue, DigitValue, HEX;
    if s != "" {
      var n := |s| - 1;
      HexSplit(s, n);
      HexSplit(t, n);
      DigitBound(s[n]);
      DigitBound(t[n]);
      HexIsInjective(s[..n], t[..n]);
      DigitIsInjective(s[n], t[n]);
      assert s == s[..n] + [s[n]] && t == t[..n] + [t[n]];
    }
  }

  lemma HexSplit(s: string, n: nat)
    requires |s| == n + 1
    ensures HexValue(s) == 16 * HexValue(s[..n]) + DigitValue(s[n])
  {
  }

  lemma DigitBound(c: char)
    requires c in HEX
    ensures DigitValue(c) < 16
  {
  }

  lemma DigitIsInjective(c: char, d: char)
    requires c in HEX && d in HEX && DigitValue(c) == DigitValue(d)
    ensures c == d
  {
  }
}
