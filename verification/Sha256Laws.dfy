/** What the building blocks of SHA-256 mean: the logical functions bit by bit, the constants as roots of
    primes, and the rounds as two sequences of words. */
module Sha256Laws {
  import opened Words
  import opened Sha256

  // ---- Binary digits ----

  /** The k-th binary digit. */
  function Digit(x: nat, k: nat): nat { Shr(x, k) % 2 }

  lemma {:induction false} GateDigit(g: Gate, x: nat, y: nat, k: nat)
    ensures Digit(Bits(g, x, y), k) == g.On(Digit(x, k), Digit(y, k))
    decreases k
  {
    if k > 0 {
      assert Bits(g, x, y) / 2 == Bits(g, x / 2, y / 2);
      GateDigit(g, x / 2, y / 2, k - 1);
    }
  }

  lemma {:induction false} NotDigit(x: nat, n: nat, k: nat)
    requires x < Pow2(n) && k < n
    ensures Digit(Pow2(n) - 1 - x, k) == 1 - Digit(x, k)
    decreases n
  {
    if k > 0 {
      assert (Pow2(n) - 1 - x) / 2 == Pow2(n - 1) - 1 - x / 2;
      NotDigit(x / 2, n - 1, k - 1);
    }
  }

  lemma {:induction false} RaiseDigit(x: nat, n: nat, k: nat)
    ensures Digit(Raise(x, n), k) == if k < n then 0 else Digit(x, k - n)
    decreases n
  {
    if n > 0 && k > 0 {
      assert Raise(x, n) / 2 == Raise(x, n - 1);
      RaiseDigit(x, n - 1, k - 1);
    }
  }

  lemma {:induction false} LowDigit(x: nat, n: nat, k: nat)
    requires k < n
    ensures Digit(Low(x, n), k) == Digit(x, k)
    decreases n
  {
    if k > 0 { LowDigit(x / 2, n - 1, k - 1); }
  }

  lemma {:induction false} RaiseMultiplies(x: nat, n: nat)
    ensures Raise(x, n) == Pow2(n) * x
    decreases n
  {
    if n > 0 { RaiseMultiplies(x, n - 1); }
  }

  lemma LowIsRemainder(x: nat)
    ensures Low(x, 32) == x % TWO32
  {
    hide Low, Raise, Shr, Pow2;
    WordRange();
    ShiftSplits(x, 32);
    RaiseMultiplies(Shr(x, 32), 32);
  }

  lemma ShlDigit(x: Word, n: nat, k: nat)
    requires k < 32
    ensures Digit(Shl(x, n), k) == if k < n then 0 else Digit(x, k - n)
  {
    hide Low, Raise, Shr, Digit;
    LowIsRemainder(Raise(x, n));
    LowDigit(Raise(x, n), 32, k);
    RaiseDigit(x, n, k);
  }

  lemma ShrDigit(x: nat, n: nat, k: nat)
    ensures Digit(Shr(x, n), k) == Digit(x, n + k)
  {
    ShrTwice(x, n, k);
  }

  lemma NoDigit(x: Word, k: nat)
    requires k >= 32
    ensures Digit(x, k) == 0
  {
    hide Shr;
    WordRange();
    ShrOut(x, 32);
    ShrTwice(x, 32, k - 32);
    ShrOut(0, k - 32);
    assert Pow2(k - 32) > 0;
  }

  // ---- The logical functions ----

  function Turned(x: Word, n: nat, k: nat): nat
    requires n < 32 && k < 32
  {
    Digit(x, if k + n < 32 then k + n else k + n - 32)
  }

  /** The bits go round: bit k of a rotated word is bit k + n, counted on from 0 after 31. */
  lemma RotrTurns(x: Word, n: nat, k: nat)
    requires 0 < n < 32 && k < 32
    ensures Digit(Rotr(x, n), k) == Turned(x, n, k)
  {
    hide Shr, Shl, Digit, Bits;
    GateDigit(Disj, Shr(x, n), Shl(x, 32 - n), k);
    ShrDigit(x, n, k);
    ShlDigit(x, 32 - n, k);
    if k + n >= 32 { NoDigit(x, n + k); }
    DigitRange(x, k);
    DigitRange(x, n + k);
    if k + n >= 32 { DigitRange(x, k + n - 32); }
  }

  lemma DigitRange(x: nat, k: nat)
    ensures 0 <= Digit(x, k) < 2
  {
  }

  /** The first word chooses between the bits of the other two. */
  lemma ChChooses(x: Word, y: Word, z: Word, k: nat)
    requires k < 32
    ensures Digit(Ch(x, y, z), k) == if Digit(x, k) == 1 then Digit(y, k) else Digit(z, k)
  {
    hide Bits, Digit;
    GateDigit(Conj, x, y, k);
    GateDigit(Conj, Not(x), z, k);
    GateDigit(Parity, And(x, y), And(Not(x), z), k);
    NotDigit(x, 32, k) by { WordRange(); }
    WordRange();
    DigitRange(x, k);
    DigitRange(y, k);
    DigitRange(z, k);
  }

  /** Each bit is the one that at least two of the three words have. */
  lemma MajVotes(x: Word, y: Word, z: Word, k: nat)
    requires k < 32
    ensures Digit(Maj(x, y, z), k) == if Digit(x, k) + Digit(y, k) + Digit(z, k) >= 2 then 1 else 0
  {
    hide Bits, Digit;
    GateDigit(Conj, x, y, k);
    GateDigit(Conj, x, z, k);
    GateDigit(Conj, y, z, k);
    Xor3Digit(And(x, y), And(x, z), And(y, z), k);
    DigitRange(x, k);
    DigitRange(y, k);
    DigitRange(z, k);
  }

  lemma Xor3Digit(x: Word, y: Word, z: Word, k: nat)
    ensures Digit(Xor3(x, y, z), k) == (Digit(x, k) + Digit(y, k) + Digit(z, k)) % 2
  {
    hide Bits, Digit;
    GateDigit(Parity, x, y, k);
    GateDigit(Parity, Xor(x, y), z, k);
    DigitRange(x, k);
    DigitRange(y, k);
    DigitRange(z, k);
  }

  /** The four sums: the parity of three bits, whose places section 4.1.2 of FIPS 180-4 gives. In the small ones
      the third is shifted out at the end instead of going round. */
  lemma SigmasAdd(x: Word, k: nat)
    requires k < 32
    ensures Digit(BigSigma0(x), k) == (Turned(x, 2, k) + Turned(x, 13, k) + Turned(x, 22, k)) % 2
    ensures Digit(BigSigma1(x), k) == (Turned(x, 6, k) + Turned(x, 11, k) + Turned(x, 25, k)) % 2
    ensures Digit(SmallSigma0(x), k) == (Turned(x, 7, k) + Turned(x, 18, k) + Digit(x, k + 3)) % 2
    ensures Digit(SmallSigma1(x), k) == (Turned(x, 17, k) + Turned(x, 19, k) + Digit(x, k + 10)) % 2
  {
    hide Rotr, Shr, Digit, Xor3, Turned;
    Xor3Digit(Rotr(x, 2), Rotr(x, 13), Rotr(x, 22), k);
    Xor3Digit(Rotr(x, 6), Rotr(x, 11), Rotr(x, 25), k);
    Xor3Digit(Rotr(x, 7), Rotr(x, 18), Shr(x, 3), k);
    Xor3Digit(Rotr(x, 17), Rotr(x, 19), Shr(x, 10), k);
    RotrTurns(x, 2, k);
    RotrTurns(x, 13, k);
    RotrTurns(x, 22, k);
    RotrTurns(x, 6, k);
    RotrTurns(x, 11, k);
    RotrTurns(x, 25, k);
    RotrTurns(x, 7, k);
    RotrTurns(x, 18, k);
    RotrTurns(x, 17, k);
    RotrTurns(x, 19, k);
    ShrDigit(x, 3, k);
    ShrDigit(x, 10, k);
  }

  // ---- The constants ----

  function Cube(x: nat): nat { x * x * x }

  /** The bits are the first 32 of the fractional part of the cube root of p: scaled by 2^32, the root lies between
      the number that ends in them, after the whole part, and the next one. */
  predicate CubeRootBits(p: nat, whole: nat, bits: Word) {
    Cube(whole * TWO32 + bits) <= p * Cube(TWO32) < Cube(whole * TWO32 + bits + 1)
  }

  predicate SquareRootBits(p: nat, whole: nat, bits: Word) {
    Square(whole * TWO32 + bits) <= p * Square(TWO32) < Square(whole * TWO32 + bits + 1)
  }

  function Square(x: nat): nat { x * x }

  /** The constants of section 4.2.2 are the cube roots of the first 64 primes, and those of section 5.3.3 the square
      roots of the first eight. */
  lemma FirstConstants()
    ensures CubeRootBits(2, 1, K[0]) && CubeRootBits(3, 1, K[1]) && CubeRootBits(5, 1, K[2]) && CubeRootBits(7, 1, K[3])
    ensures CubeRootBits(11, 2, K[4]) && CubeRootBits(13, 2, K[5]) && CubeRootBits(17, 2, K[6]) && CubeRootBits(19, 2, K[7])
  {
  }

  lemma SecondConstants()
    ensures CubeRootBits(23, 2, K[8]) && CubeRootBits(29, 3, K[9]) && CubeRootBits(31, 3, K[10]) && CubeRootBits(37, 3, K[11])
    ensures CubeRootBits(41, 3, K[12]) && CubeRootBits(43, 3, K[13]) && CubeRootBits(47, 3, K[14]) && CubeRootBits(53, 3, K[15])
  {
  }

  lemma ThirdConstants()
    ensures CubeRootBits(59, 3, K[16]) && CubeRootBits(61, 3, K[17]) && CubeRootBits(67, 4, K[18]) && CubeRootBits(71, 4, K[19])
    ensures CubeRootBits(73, 4, K[20]) && CubeRootBits(79, 4, K[21]) && CubeRootBits(83, 4, K[22]) && CubeRootBits(89, 4, K[23])
  {
  }

  lemma FourthConstants()
    ensures CubeRootBits(97, 4, K[24]) && CubeRootBits(101, 4, K[25]) && CubeRootBits(103, 4, K[26]) && CubeRootBits(107, 4, K[27])
    ensures CubeRootBits(109, 4, K[28]) && CubeRootBits(113, 4, K[29]) && CubeRootBits(127, 5, K[30]) && CubeRootBits(131, 5, K[31])
  {
  }

  lemma FifthConstants()
    ensures CubeRootBits(137, 5, K[32]) && CubeRootBits(139, 5, K[33]) && CubeRootBits(149, 5, K[34]) && CubeRootBits(151, 5, K[35])
    ensures CubeRootBits(157, 5, K[36]) && CubeRootBits(163, 5, K[37]) && CubeRootBits(167, 5, K[38]) && CubeRootBits(173, 5, K[39])
  {
  }

  lemma SixthConstants()
    ensures CubeRootBits(179, 5, K[40]) && CubeRootBits(181, 5, K[41]) && CubeRootBits(191, 5, K[42]) && CubeRootBits(193, 5, K[43])
    ensures CubeRootBits(197, 5, K[44]) && CubeRootBits(199, 5, K[45]) && CubeRootBits(211, 5, K[46]) && CubeRootBits(223, 6, K[47])
  {
  }

  lemma SeventhConstants()
    ensures CubeRootBits(227, 6, K[48]) && CubeRootBits(229, 6, K[49]) && CubeRootBits(233, 6, K[50]) && CubeRootBits(239, 6, K[51])
    ensures CubeRootBits(241, 6, K[52]) && CubeRootBits(251, 6, K[53]) && CubeRootBits(257, 6, K[54]) && CubeRootBits(263, 6, K[55])
  {
  }

  lemma EighthConstants()
    ensures CubeRootBits(269, 6, K[56]) && CubeRootBits(271, 6, K[57]) && CubeRootBits(277, 6, K[58]) && CubeRootBits(281, 6, K[59])
    ensures CubeRootBits(283, 6, K[60]) && CubeRootBits(293, 6, K[61]) && CubeRootBits(307, 6, K[62]) && CubeRootBits(311, 6, K[63])
  {
  }

  lemma InitialValues()
    ensures SquareRootBits(2, 1, H0[0]) && SquareRootBits(3, 1, H0[1]) && SquareRootBits(5, 2, H0[2]) && SquareRootBits(7, 2, H0[3])
    ensures SquareRootBits(11, 3, H0[4]) && SquareRootBits(13, 3, H0[5]) && SquareRootBits(17, 4, H0[6]) && SquareRootBits(19, 4, H0[7])
  {
  }

  // ---- The rounds ----

  /** The working variables as two sequences: what `a` is after each round, and what `e` is, each with its first
      four values. The other six variables are earlier values of these. */
  function A(v: Vars, block: Block, t: nat): Word
    requires t < 68
    decreases t, 1
  {
    if t < 4 then [v.d, v.c, v.b, v.a][t]
    else (T1(v, block, t) + BigSigma0(A(v, block, t - 1)) + Maj(A(v, block, t - 1), A(v, block, t - 2), A(v, block, t - 3))) % TWO32
  }

  function E(v: Vars, block: Block, t: nat): Word
    requires t < 68
    decreases t, 1
  {
    if t < 4 then [v.h, v.g, v.f, v.e][t] else (A(v, block, t - 4) + T1(v, block, t)) % TWO32
  }

  function T1(v: Vars, block: Block, t: nat): nat
    requires 4 <= t < 68
    decreases t, 0
  {
    E(v, block, t - 4) + BigSigma1(E(v, block, t - 1)) + Ch(E(v, block, t - 1), E(v, block, t - 2), E(v, block, t - 3))
    + K[t - 4] + Schedule(block, t - 4)
  }

  lemma {:induction false} RoundsAreTwoSequences(v: Vars, block: Block, n: nat)
    requires n <= 64
    ensures Rounds(v, block, n) ==
            Vars(A(v, block, n + 3), A(v, block, n + 2), A(v, block, n + 1), A(v, block, n),
                 E(v, block, n + 3), E(v, block, n + 2), E(v, block, n + 1), E(v, block, n))
    decreases n
  {
    hide BigSigma0, BigSigma1, Ch, Maj, Schedule;
    if n > 0 {
      RoundsAreTwoSequences(v, block, n - 1);
      var t := n + 3;
      var s1, ch := BigSigma1(E(v, block, t - 1)), Ch(E(v, block, t - 1), E(v, block, t - 2), E(v, block, t - 3));
      var s0, mj := BigSigma0(A(v, block, t - 1)), Maj(A(v, block, t - 1), A(v, block, t - 2), A(v, block, t - 3));
      RoundAdds(E(v, block, t - 4), s1, ch, K[n - 1], Schedule(block, n - 1), s0, mj, A(v, block, t - 4));
    }
  }

  /** Carries may be dropped at every addition or once at the end. */
  lemma RoundAdds(h: Word, s1: Word, ch: Word, k: Word, w: Word, s0: Word, mj: Word, d: Word)
    ensures var t1 := Add(Add(Add(Add(h, s1), ch), k), w);
            && Add(t1, Add(s0, mj)) == (h + s1 + ch + k + w + s0 + mj) % TWO32
            && Add(d, t1) == (d + (h + s1 + ch + k + w)) % TWO32
  {
    hide Add;
    var sum := h + s1 + ch + k + w;
    AddFive(h, s1, ch, k, w);
    AddLast(sum, d, s0, mj);
  }

  lemma AddFive(p: Word, q: Word, r: Word, u: Word, w: Word)
    ensures Add(Add(Add(Add(p, q), r), u), w) == (p + q + r + u + w) % TWO32
  {
    AddFour(p, q, r, u);
    AddCarries(p + q + r + u, w);
  }

  lemma AddLast(sum: nat, d: Word, s0: Word, mj: Word)
    ensures Add(sum % TWO32, Add(s0, mj)) == (sum + s0 + mj) % TWO32 && Add(d, sum % TWO32) == (d + sum) % TWO32
  {
    AddCarries(sum, d);
    AddCarries(sum, (s0 + mj) % TWO32);
    AddCarries(s0 + mj, sum);
  }

  lemma AddFour(p: Word, q: Word, r: Word, u: Word)
    ensures Add(Add(Add(p, q), r), u) == (p + q + r + u) % TWO32
  {
    AddThree(p, q, r);
    AddCarries(p + q + r, u);
  }

  /** The first words of the schedule are the block's bytes, four at a time, the first one highest. */
  lemma WordsOfBlock(block: Block, j: nat)
    requires j < 16
    ensures var p: nat, q: nat, r: nat, s: nat := block[4 * j], block[4 * j + 1], block[4 * j + 2], block[4 * j + 3];
            Schedule(block, j) == 0x100_0000 * p + 0x1_0000 * q + 0x100 * r + s
  {
    hide Packed, Value;
    var p, q, r, s := block[4 * j], block[4 * j + 1], block[4 * j + 2], block[4 * j + 3];
    PackedIsBigEndian(p, q, r, s);
    ValueOfFour(p, q, r, s);
  }

  /** The schedule, with one remainder. */
  lemma ScheduleAdds(block: Block, t: nat)
    requires 16 <= t < 64
    ensures Schedule(block, t) ==
            (SmallSigma1(Schedule(block, t - 2)) + Schedule(block, t - 7) + SmallSigma0(Schedule(block, t - 15)) + Schedule(block, t - 16)) % TWO32
  {
    hide SmallSigma0, SmallSigma1, Add, WordAt;
    var p, q := SmallSigma1(Schedule(block, t - 2)), Schedule(block, t - 7);
    var r, u := SmallSigma0(Schedule(block, t - 15)), Schedule(block, t - 16);
    assert Schedule(block, t) == Add(Add(Add(p, q), r), u);
    AddFour(p, q, r, u);
  }

  /** A block adds its working variables to the hash value, word by word. */
  lemma CompressAdds(s: Hash, block: Block, i: nat)
    requires i < 8
    ensures var v := Vars(s[0], s[1], s[2], s[3], s[4], s[5], s[6], s[7]);
            Compress(s, block)[i] == (s[i] + if i < 4 then A(v, block, 67 - i) else E(v, block, 71 - i)) % TWO32
  {
    hide A, E, Rounds;
    RoundsAreTwoSequences(VarsOf(s), block, 64);
  }
}
