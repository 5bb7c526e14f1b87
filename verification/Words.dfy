/** 64-bit machine words as numbers below 2^64, with the arithmetic and the bitwise
    operations that the emitted instructions perform on them. */
module Words {

  type Word = x: int | 0 <= x < 0x1_0000_0000_0000_0000
  type Byte = x: int | 0 <= x < 256

  const ONES: Word := 0xFFFF_FFFF_FFFF_FFFF
  const HALF: Word := 0x8000_0000_0000_0000

  function Wrap(i: int): Word {
    i % 0x1_0000_0000_0000_0000
  }

  lemma WrapOnce(i: int)
    ensures 0 <= i < 0x1_0000_0000_0000_0000 ==> Wrap(i) == i
    ensures 0x1_0000_0000_0000_0000 <= i < 0x2_0000_0000_0000_0000 ==> Wrap(i) == i - 0x1_0000_0000_0000_0000
    ensures -0x1_0000_0000_0000_0000 <= i < 0 ==> Wrap(i) == i + 0x1_0000_0000_0000_0000
  {}

  /** The two's complement reading of a word. */
  function Signed(w: Word): int {
    if w < HALF then w else w - 0x1_0000_0000_0000_0000
  }

  /** `pushq $imm`: the low 32 bits, sign-extended to 64. */
  function SignExtend32(w: Word): Word {
    var low := w % 0x1_0000_0000;
    if low < 0x8000_0000 then low else low + 0xFFFF_FFFF_0000_0000
  }

  function Pow2(n: nat): nat
    ensures Pow2(n) > 0
  {
    if n == 0 then 1 else 2 * Pow2(n - 1)
  }

  datatype BitOp = BitAnd | BitOr | BitXor

  function Bit(op: BitOp, a: bool, b: bool): bool {
    match op
    case BitAnd => a && b
    case BitOr => a || b
    case BitXor => a != b
  }

  /** A bitwise operation on naturals, from the least significant bit upwards. */
  function Bits(op: BitOp, a: nat, b: nat): nat
    decreases a + b
  {
    if a == 0 && b == 0 then 0
    else 2 * Bits(op, a / 2, b / 2) + (if Bit(op, a % 2 == 1, b % 2 == 1) then 1 else 0)
  }

  lemma {:induction false} BitsBound(op: BitOp, a: nat, b: nat, n: nat)
    requires a < Pow2(n) && b < Pow2(n)
    ensures Bits(op, a, b) < Pow2(n)
    decreases a + b
  {
    if a == 0 && b == 0 {
    } else {
      BitsBound(op, a / 2, b / 2, n - 1);
    }
  }

  lemma Pow2PlusEight(n: nat)
    ensures Pow2(n + 8) == 256 * Pow2(n)
  {
    assert Pow2(n + 4) == 16 * Pow2(n) by {
      assert Pow2(n + 4) == 2 * Pow2(n + 3) && Pow2(n + 2) == 2 * Pow2(n + 1);
    }
    assert Pow2(n + 8) == 2 * Pow2(n + 7) && Pow2(n + 6) == 2 * Pow2(n + 5);
  }

  lemma Pow2Of64()
    ensures Pow2(64) == 0x1_0000_0000_0000_0000
  {
    assert Pow2(0) == 1;
    Pow2PlusEight(0);
    Pow2PlusEight(8);
    Pow2PlusEight(16);
    Pow2PlusEight(24);
    Pow2PlusEight(32);
    Pow2PlusEight(40);
    Pow2PlusEight(48);
    Pow2PlusEight(56);
  }

  function Bitwise(op: BitOp, a: Word, b: Word): Word {
    Pow2Of64();
    BitsBound(op, a, b, 64);
    Bits(op, a, b)
  }

  function Not(w: Word): Word {
    ONES - w
  }

  /** All-ones absorbs any word under OR. */
  lemma {:induction false} OrMask(a: nat, n: nat)
    requires a < Pow2(n)
    ensures Bits(BitOr, Pow2(n) - 1, a) == Pow2(n) - 1
  {
    if n > 0 {
      OrMask(a / 2, n - 1);
    }
  }

  lemma {:induction false} BitsZero(op: BitOp, a: nat)
    requires op != BitAnd
    ensures Bits(op, 0, a) == a && Bits(op, a, 0) == a
  {
    if a > 0 {
      BitsZero(op, a / 2);
    }
  }

  /** Strict OR of two truth values kept as 0 and all-ones. */
  lemma OrTruth(a: bool, b: bool)
    ensures Bitwise(BitOr, Truth(a), Truth(b)) == Truth(a || b)
  {
    Pow2Of64();
    OrMask(Truth(b), 64);
    BitsZero(BitOr, Truth(b));
  }

  /** BOOLEAN on the operand stack. */
  function Truth(b: bool): Word {
    if b then ONES else 0
  }

  lemma TruthBit(b: bool)
    ensures Bitwise(BitAnd, 1, Truth(b)) == if b then 1 else 0
    ensures Bitwise(BitAnd, Truth(b), 1) == if b then 1 else 0
  {
    hide Bits;
    var w := Truth(b);
    AndZeroes(1);
    AndZeroes(w / 2);
    BitsStep(BitAnd, 1, w);
    BitsStep(BitAnd, w, 1);
  }

  lemma BitsStep(op: BitOp, a: nat, b: nat)
    requires a + b > 0
    ensures Bits(op, a, b) == 2 * Bits(op, a / 2, b / 2) + (if Bit(op, a % 2 == 1, b % 2 == 1) then 1 else 0)
  {}

  lemma {:induction false} AndZeroes(a: nat)
    ensures Bits(BitAnd, 0, a) == 0 && Bits(BitAnd, a, 0) == 0
  {
    if a > 0 {
      AndZeroes(a / 2);
    }
  }

  /** Exclusive or cancels, which is what makes the three-step register swap work. */
  lemma {:induction false} XorCancels(a: nat, b: nat)
    ensures Bits(BitXor, Bits(BitXor, a, b), a) == b
    ensures Bits(BitXor, a, Bits(BitXor, a, b)) == b
    ensures Bits(BitXor, Bits(BitXor, a, b), b) == a
    ensures Bits(BitXor, b, Bits(BitXor, a, b)) == a
    decreases a + b
  {
    if a == 0 && b == 0 {
    } else {
      XorCancels(a / 2, b / 2);
    }
  }

  lemma {:induction false} MulAtLeast(b: nat, q: nat)
    requires b > 0
    ensures b * q >= q
  {
    if b > 1 {
      MulAtLeast(b - 1, q);
      assert b * q == (b - 1) * q + q;
    }
  }

  lemma DivLess(a: nat, b: nat)
    requires b > 0
    ensures 0 <= a / b <= a
  {
    MulAtLeast(b, a / b);
  }

  lemma Sixteens(q: int)
    ensures (16 * q) % 16 == 0
  {}

  lemma Residue(rsp: int)
    requires rsp % 8 == 0
    ensures rsp % 16 == 0 || rsp % 16 == 8
    ensures (rsp - rsp % 16) % 16 == 0
  {
    var q := rsp / 16;
    assert rsp % 16 == 8 * (rsp / 8 - 2 * q);
    Sixteens(q);
  }

  lemma LowByte(w: Word, n: nat)
    requires n < 256
    ensures 0 <= w - w % 256 + n < 0x1_0000_0000_0000_0000
    ensures (w - w % 256 + n) % 256 == n
  {
    var q := w / 256;
    assert w - w % 256 + n == 256 * q + n;
  }
}
