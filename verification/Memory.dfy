/** Byte-addressed data memory with little-endian 8-byte accesses. */
module Memory {
  import opened Words

  type Mem = map<int, Byte>

  predicate Mapped(m: Mem, a: int) {
    forall i :: a <= i < a + 8 ==> i in m
  }

  function LoadRange(m: Mem, lo: int, hi: int): nat
    requires forall i :: lo <= i < hi ==> i in m
    decreases hi - lo
  {
    if lo >= hi then 0 else m[lo] + 256 * LoadRange(m, lo + 1, hi)
  }

  function StoreRange(m: Mem, lo: int, hi: int, w: nat): (r: Mem)
    ensures forall i :: i in r <==> i in m || lo <= i < hi
    decreases hi - lo
  {
    if lo >= hi then m else StoreRange(m[lo := w % 256], lo + 1, hi, w / 256)
  }

  lemma {:induction false} LoadRangeBound(m: Mem, lo: int, hi: int, n: nat)
    requires forall i :: lo <= i < hi ==> i in m
    requires n == if lo >= hi then 0 else 8 * (hi - lo)
    ensures LoadRange(m, lo, hi) < Pow2(n)
    decreases hi - lo
  {
    if lo < hi {
      LoadRangeBound(m, lo + 1, hi, n - 8);
      Pow2PlusEight(n - 8);
    }
  }

  /** The 8-byte little-endian read at `a`. */
  function Load(m: Mem, a: int): Word
    requires Mapped(m, a)
  {
    LoadRangeBound(m, a, a + 8, 64);
    Pow2Of64();
    LoadRange(m, a, a + 8)
  }

  /** The 8-byte little-endian write at `a`. */
  function Store(m: Mem, a: int, w: Word): Mem {
    StoreRange(m, a, a + 8, w)
  }

  lemma LoadByte(m: Mem, lo: int, hi: int)
    requires lo < hi && forall i :: lo <= i < hi ==> i in m
    ensures LoadRange(m, lo, hi) == m[lo] + 256 * LoadRange(m, lo + 1, hi)
  {}

  /** The least significant byte is at the lowest address. */
  lemma LittleEndian(m: Mem, a: int)
    requires Mapped(m, a)
    ensures var b: seq<int> := [m[a], m[a + 1], m[a + 2], m[a + 3], m[a + 4], m[a + 5], m[a + 6], m[a + 7]];
      Load(m, a) == b[0] + 0x100 * b[1] + 0x1_0000 * b[2] + 0x100_0000 * b[3] + 0x1_0000_0000 * b[4]
                    + 0x100_0000_0000 * b[5] + 0x1_0000_0000_0000 * b[6] + 0x100_0000_0000_0000 * b[7]
  {
    hide LoadRange;
    LoadByte(m, a, a + 8);
    LoadByte(m, a + 1, a + 8);
    LoadByte(m, a + 2, a + 8);
    LoadByte(m, a + 3, a + 8);
    LoadByte(m, a + 4, a + 8);
    LoadByte(m, a + 5, a + 8);
    LoadByte(m, a + 6, a + 8);
    LoadByte(m, a + 7, a + 8);
    NoBytes(m, a + 8);
  }

  lemma NoBytes(m: Mem, a: int)
    ensures LoadRange(m, a, a) == 0
  {}

  lemma {:induction false} StoreRangeOutside(m: Mem, lo: int, hi: int, w: nat, i: int)
    requires i in m && !(lo <= i < hi)
    ensures StoreRange(m, lo, hi, w)[i] == m[i]
    decreases hi - lo
  {
    if lo < hi {
      StoreRangeOutside(m[lo := w % 256], lo + 1, hi, w / 256, i);
    }
  }

  lemma {:induction false} LoadStoreRange(m: Mem, lo: int, hi: int, w: nat, n: nat)
    requires n == if lo >= hi then 0 else 8 * (hi - lo)
    requires w < Pow2(n)
    ensures LoadRange(StoreRange(m, lo, hi, w), lo, hi) == w
    decreases hi - lo
  {
    if lo < hi {
      Pow2PlusEight(n - 8);
      var m1 := m[lo := w % 256];
      LoadStoreRange(m1, lo + 1, hi, w / 256, n - 8);
      StoreRangeOutside(m1, lo + 1, hi, w / 256, lo);
    }
  }

  lemma {:induction false} LoadRangeAgrees(m: Mem, m': Mem, lo: int, hi: int)
    requires forall i :: lo <= i < hi ==> i in m && i in m' && m[i] == m'[i]
    ensures LoadRange(m, lo, hi) == LoadRange(m', lo, hi)
    decreases hi - lo
  {
    if lo < hi {
      LoadRangeAgrees(m, m', lo + 1, hi);
    }
  }

  /** A read returns what was last written at the same address. */
  lemma LoadOwnStore(m: Mem, a: int, w: Word)
    ensures Mapped(Store(m, a, w), a) && Load(Store(m, a, w), a) == w
  {
    Pow2Of64();
    LoadStoreRange(m, a, a + 8, w, 64);
  }

  /** Footprints at least 8 bytes apart do not interfere. */
  lemma LoadOtherStore(m: Mem, a: int, w: Word, b: int)
    requires Mapped(m, b) && (a + 8 <= b || b + 8 <= a)
    ensures Mapped(Store(m, a, w), b) && Load(Store(m, a, w), b) == Load(m, b)
  {
    forall i | b <= i < b + 8 ensures i in Store(m, a, w) && Store(m, a, w)[i] == m[i] {
      StoreRangeOutside(m, a, a + 8, w, i);
    }
    LoadRangeAgrees(Store(m, a, w), m, b, b + 8);
  }
}
