/** 32-bit words and bytes as numbers, with the shifts and bitwise operators of the source's unsigned
    types. Bitwise operators work on binary digits, so their arithmetic meaning can be proved. */
module Words {

  const TWO32: nat := 0x1_0000_0000

  type Word = n: nat | n < TWO32
  type Byte = n: nat | n < 256

  datatype Gate = Conj | Disj | Parity {
    /** The gate on two binary digits. */
    function On(p: nat, q: nat): (r: nat)
      requires p < 2 && q < 2
      ensures r < 2 && (p == 0 && q == 0 ==> r == 0)
    {
      match this
      case Conj => if p == 1 && q == 1 then 1 else 0
      case Disj => if p == 1 || q == 1 then 1 else 0
      case Parity => if p != q then 1 else 0
    }
  }

  /** A gate applied digit by digit. */
  function Bits(g: Gate, x: nat, y: nat): nat
    decreases x + y
  {
    if x == 0 && y == 0 then 0 else 2 * Bits(g, x / 2, y / 2) + g.On(x % 2, y % 2)
  }

  function Pow2(k: nat): (r: nat)
    ensures r > 0
  {
    if k == 0 then 1 else 2 * Pow2(k - 1)
  }

  lemma {:induction false} BitsFit(g: Gate, x: nat, y: nat, k: nat)
    requires x < Pow2(k) && y < Pow2(k)
    ensures Bits(g, x, y) < Pow2(k)
  {
    if k > 0 { BitsFit(g, x / 2, y / 2, k - 1); }
  }

  lemma WordRange()
    ensures Pow2(4) == 16 && Pow2(8) == 256 && Pow2(16) == 0x1_0000 && Pow2(24) == 0x100_0000 && Pow2(32) == TWO32
  {
  }

  function And(x: Word, y: Word): Word {
    WordRange(); BitsFit(Conj, x, y, 32); Bits(Conj, x, y)
  }

  function Or(x: Word, y: Word): Word {
    WordRange(); BitsFit(Disj, x, y, 32); Bits(Disj, x, y)
  }

  function Xor(x: Word, y: Word): Word {
    WordRange(); BitsFit(Parity, x, y, 32); Bits(Parity, x, y)
  }

  function Not(x: Word): Word { TWO32 - 1 - x }

  /** x shifted right. */
  function Shr(x: nat, n: nat): (r: nat)
    ensures r <= x
    decreases n
  {
    if n == 0 then x else Shr(x / 2, n - 1)
  }

  /** x shifted left, keeping every digit. */
  function Raise(x: nat, n: nat): nat
    decreases n
  {
    if n == 0 then x else 2 * Raise(x, n - 1)
  }

  function Shl(x: Word, n: nat): Word { Raise(x, n) % TWO32 }

  function Add(x: Word, y: Word): Word { (x + y) % TWO32 }

  lemma {:induction false} ShrTwice(x: nat, a: nat, b: nat)
    ensures Shr(Shr(x, a), b) == Shr(x, a + b)
  {
    if a > 0 { ShrTwice(x / 2, a - 1, b); }
  }

  lemma {:induction false} ShrOut(x: nat, k: nat)
    requires x < Pow2(k)
    ensures Shr(x, k) == 0
    decreases k
  {
    if k > 0 { ShrOut(x / 2, k - 1); }
  }

  lemma {:induction false} GateWithZero(x: nat)
    ensures Bits(Disj, x, 0) == x && Bits(Conj, x, 0) == 0
  {
    if x > 0 { GateWithZero(x / 2); }
  }

  /** Or-ing in digits below those already set is adding them. */
  lemma {:induction false} DisjIsSum(x: nat, y: nat, k: nat)
    requires y < Pow2(k)
    ensures Bits(Disj, Raise(x, k), y) == Raise(x, k) + y
  {
    if k == 0 {
      GateWithZero(x);
    } else {
      DisjIsSum(x, y / 2, k - 1);
    }
  }

  /** The k lowest digits. */
  function Low(x: nat, k: nat): nat
    decreases k
  {
    if k == 0 then 0 else 2 * Low(x / 2, k - 1) + x % 2
  }

  lemma {:induction false} ShiftSplits(x: nat, k: nat)
    ensures x == Raise(Shr(x, k), k) + Low(x, k) && Low(x, k) < Pow2(k)
    decreases k
  {
    if k > 0 { ShiftSplits(x / 2, k - 1); }
  }

  /** And-ing with a run of ones keeps the low digits. */
  lemma {:induction false} MaskKeepsLow(x: nat, k: nat)
    ensures Bits(Conj, x, Pow2(k) - 1) == Low(x, k)
    decreases k
  {
    if k == 0 {
      GateWithZero(x);
    } else {
      MaskKeepsLow(x / 2, k - 1);
    }
  }

  lemma RaiseIsMultiply(x: nat)
    ensures Raise(x, 4) == 16 * x && Raise(x, 8) == 256 * x
    ensures Raise(x, 16) == 0x1_0000 * x && Raise(x, 24) == 0x100_0000 * x
  {
  }

  lemma RaiseByte(x: nat, n: nat)
    ensures Raise(x, n + 8) == 256 * Raise(x, n)
  {
    assert Raise(x, n + 4) == 16 * Raise(x, n) by {
      assert Raise(x, n + 2) == 4 * Raise(x, n);
    }
    assert Raise(x, n + 6) == 4 * Raise(x, n + 4);
  }

  /** Shifting by a byte and masking one off are division and remainder. */
  lemma ByteSplits(x: nat)
    ensures Shr(x, 8) == x / 256 && Bits(Conj, x, 0xff) == x % 256
  {
    WordRange();
    ShiftSplits(x, 8);
    MaskKeepsLow(x, 8);
    RaiseIsMultiply(Shr(x, 8));
  }

  lemma NibbleSplits(x: nat)
    ensures Shr(x, 4) == x / 16 && Bits(Conj, x, 0xf) == x % 16
  {
    WordRange();
    ShiftSplits(x, 4);
    MaskKeepsLow(x, 4);
    RaiseIsMultiply(Shr(x, 4));
  }
}
