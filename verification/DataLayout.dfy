/** The data section: globals back to back in the order they are emitted, one byte for a BOOLEAN or
    a CHAR and eight for the rest, while every access is eight bytes wide. */
module DataLayout {
  import opened Words
  import opened Memory
  import opened Syntax
  import opened Typing
  import opened Machine
  import opened Semantics
  import opened Simulation
  import opened Preservation

  function Width(t: Ty): nat {
    if t.TBool? || t.TChar? then 1 else 8
  }

  predicate Declares(c: Scope, order: seq<Name>) {
    forall i :: 0 <= i < |order| ==> order[i] in c.vars
  }

  function Size(c: Scope, order: seq<Name>): nat
    requires Declares(c, order)
  {
    if order == [] then 0 else Size(c, order[..|order| - 1]) + Width(c.vars[order[|order| - 1]])
  }

  /** The address of the i-th global. */
  function At(c: Scope, order: seq<Name>, base: int, i: nat): int
    requires Declares(c, order) && i < |order|
  {
    base + Size(c, order[..i])
  }

  /** Eight-byte accesses behave as a store of variables: a read gives what was last written to the
      same variable, whatever was written to the others. */
  ghost predicate Refines(c: Scope, order: seq<Name>, base: int)
    requires Declares(c, order)
  {
    forall mem: Mem, i, j, w: Word | 0 <= i < |order| && 0 <= j < |order|
        && Mapped(mem, At(c, order, base, i)) && Mapped(mem, At(c, order, base, j)) ::
      var mem' := Store(mem, At(c, order, base, i), w);
      && Mapped(mem', At(c, order, base, j))
      && Load(mem', At(c, order, base, j)) == if i == j then w else Load(mem, At(c, order, base, j))
  }

  /** No global in front of another one is a BOOLEAN or a CHAR. */
  predicate WideButLast(c: Scope, order: seq<Name>)
    requires Declares(c, order)
  {
    forall i :: 0 <= i < |order| - 1 ==> !c.vars[order[i]].TBool? && !c.vars[order[i]].TChar?
  }

  /** The directives of the section: `.byte` for a BOOLEAN or a CHAR and `.quad` for the rest, one
      behind the other. */
  lemma BackToBack(c: Scope, order: seq<Name>, base: int, i: nat)
    requires Declares(c, order) && i < |order|
    ensures i == 0 ==> At(c, order, base, i) == base
    ensures i + 1 < |order| && (c.vars[order[i]].TBool? || c.vars[order[i]].TChar?) ==>
              At(c, order, base, i + 1) == At(c, order, base, i) + 1
    ensures i + 1 < |order| && (c.vars[order[i]].TInt? || c.vars[order[i]].TDouble? || c.vars[order[i]].TPtr?) ==>
              At(c, order, base, i + 1) == At(c, order, base, i) + 8
  {
    if i + 1 < |order| {
      assert order[..i + 1][..i] == order[..i];
    }
  }

  lemma {:induction false} EightApart(c: Scope, order: seq<Name>, base: int, i: nat, j: nat)
    requires Declares(c, order) && WideButLast(c, order) && i < j < |order|
    ensures At(c, order, base, i) + 8 <= At(c, order, base, j)
    decreases j
  {
    hide At;
    BackToBack(c, order, base, j - 1);
    if i < j - 1 {
      EightApart(c, order, base, i, j - 1);
    }
  }

  lemma AllApart(c: Scope, order: seq<Name>, base: int, i: nat, j: nat)
    requires Declares(c, order) && WideButLast(c, order) && i < |order| && j < |order| && i != j
    ensures Apart(At(c, order, base, i), At(c, order, base, j))
  {
    hide At;
    if i < j {
      EightApart(c, order, base, i, j);
    } else {
      EightApart(c, order, base, j, i);
    }
  }

  function Zeroed(lo: int, hi: int): (m: Mem)
    ensures forall a :: a in m <==> lo <= a < hi
    ensures forall a :: a in m ==> m[a] == 0
    decreases hi - lo
  {
    if lo >= hi then map[] else Zeroed(lo + 1, hi)[lo := 0]
  }

  lemma {:induction false} ZeroRange(m: Mem, lo: int, hi: int)
    requires forall a :: lo <= a < hi ==> a in m && m[a] == 0
    ensures LoadRange(m, lo, hi) == 0
    decreases hi - lo
  {
    if lo < hi {
      ZeroRange(m, lo + 1, hi);
    }
  }

  lemma ZeroLoad(m: Mem, a: int)
    requires forall b :: a <= b < a + 8 ==> b in m && m[b] == 0
    ensures Mapped(m, a) && Load(m, a) == 0
  {
    ZeroRange(m, a, a + 8);
  }

  /** Writing 256 at an address changes what is read one byte further. */
  lemma Clobbers(m: Mem, a: int)
    requires forall b :: a <= b < a + 9 ==> b in m && m[b] == 0
    ensures Mapped(m, a) && Mapped(m, a + 1) && Load(m, a + 1) == 0
    ensures Mapped(Store(m, a, 256), a + 1) && Load(Store(m, a, 256), a + 1) != 0
  {
    ZeroLoad(m, a + 1);
    var m1 := m[a := 0];
    var m2 := m1[a + 1 := 1];
    assert Store(m, a, 256) == StoreRange(m1, a + 1, a + 8, 1);
    assert StoreRange(m1, a + 1, a + 8, 1) == StoreRange(m2, a + 2, a + 8, 0);
    StoreRangeOutside(m2, a + 2, a + 8, 0, a + 1);
    var m3 := Store(m, a, 256);
    assert m3[a + 1] == 1;
    assert LoadRange(m3, a + 1, a + 9) == 1 + 256 * LoadRange(m3, a + 2, a + 9);
  }

  /** The accesses refine a store of variables iff no global but the last one emitted is a BOOLEAN or a
      CHAR. */
  lemma LayoutRefines(c: Scope, order: seq<Name>, base: int)
    requires Declares(c, order)
    ensures Refines(c, order, base)
       <==> (forall i :: 0 <= i < |order| - 1 ==> !c.vars[order[i]].TBool? && !c.vars[order[i]].TChar?)
  {
    hide At, Store, Load, Mapped;
    if WideButLast(c, order) {
      WideRefines(c, order, base);
    } else {
      var i :| 0 <= i < |order| - 1 && (c.vars[order[i]].TBool? || c.vars[order[i]].TChar?);
      NarrowClobbers(c, order, base, i);
    }
  }

  lemma WideRefines(c: Scope, order: seq<Name>, base: int)
    requires Declares(c, order) && WideButLast(c, order)
    ensures Refines(c, order, base)
  {
    hide At, Store, Load, Mapped;
    forall mem: Mem, i, j, w: Word | 0 <= i < |order| && 0 <= j < |order|
        && Mapped(mem, At(c, order, base, i)) && Mapped(mem, At(c, order, base, j))
      ensures var mem' := Store(mem, At(c, order, base, i), w);
        && Mapped(mem', At(c, order, base, j))
        && Load(mem', At(c, order, base, j)) == if i == j then w else Load(mem, At(c, order, base, j))
    {
      if i == j {
        LoadOwnStore(mem, At(c, order, base, i), w);
      } else {
        AllApart(c, order, base, i, j);
        LoadOtherStore(mem, At(c, order, base, i), w, At(c, order, base, j));
      }
    }
  }

  lemma NarrowClobbers(c: Scope, order: seq<Name>, base: int, i: nat)
    requires Declares(c, order) && i + 1 < |order| && (c.vars[order[i]].TBool? || c.vars[order[i]].TChar?)
    ensures !Refines(c, order, base)
  {
    hide At, Store, Load, Mapped;
    var a := At(c, order, base, i);
    BackToBack(c, order, base, i);
    var m := Zeroed(a, a + 9);
    Clobbers(m, a);
  }

  /** With two or more globals, every emission order is sound iff none of them is a BOOLEAN or a
      CHAR. */
  lemma EveryOrderRefines(c: Scope, order: seq<Name>, base: int)
    requires Declares(c, order) && |order| >= 2
    ensures (forall p: seq<Name> | multiset(p) == multiset(order) && Declares(c, p) :: Refines(c, p, base))
       <==> (forall i :: 0 <= i < |order| ==> !c.vars[order[i]].TBool? && !c.vars[order[i]].TChar?)
  {
    hide Refines;
    if forall i :: 0 <= i < |order| ==> !c.vars[order[i]].TBool? && !c.vars[order[i]].TChar? {
      forall p: seq<Name> | multiset(p) == multiset(order) && Declares(c, p) ensures Refines(c, p, base) {
        forall i | 0 <= i < |p| ensures !c.vars[p[i]].TBool? && !c.vars[p[i]].TChar? {
          assert p[i] in multiset(p);
          assert p[i] in order;
        }
        LayoutRefines(c, p, base);
      }
    } else {
      var i :| 0 <= i < |order| && (c.vars[order[i]].TBool? || c.vars[order[i]].TChar?);
      var p := MovedToFront(order, i);
      assert Declares(c, p) by {
        forall k | 0 <= k < |p| ensures p[k] in c.vars {
          assert p[k] in multiset(p);
          assert p[k] in order;
        }
      }
      assert p[0] == order[i];
      LayoutRefines(c, p, base);
    }
  }

  lemma MovedToFront(s: seq<Name>, i: nat) returns (p: seq<Name>)
    requires i < |s|
    ensures multiset(p) == multiset(s) && |p| == |s| && p[0] == s[i]
  {
    p := [s[i]] + s[..i] + s[i + 1..];
    assert s == s[..i] + [s[i]] + s[i + 1..];
  }

  // ---------- the premise of the main theorem ----------

  predicate Distinct(order: seq<Name>) {
    forall i, j :: 0 <= i < j < |order| ==> order[i] != order[j]
  }

  /** The environment puts the globals of the scope where the data section does. */
  ghost predicate LaidOut(c: Scope, o: Env, order: seq<Name>, base: int) {
    && Distinct(order) && Declares(c, order) && (forall x :: x in c.vars ==> x in order)
    && (forall i :: 0 <= i < |order| ==> order[i] in o.addr && o.addr[order[i]] == At(c, order, base, i))
  }

  lemma {:induction false} InsideSection(c: Scope, order: seq<Name>, base: int, i: nat)
    requires Declares(c, order) && i < |order|
    ensures base <= At(c, order, base, i) && At(c, order, base, i) + 1 <= base + Size(c, order)
    decreases |order| - i
  {
    if i + 1 < |order| {
      InsideSection(c, order, base, i + 1);
      BackToBack(c, order, base, i);
    } else {
      assert order[..|order| - 1] == order[..i];
    }
  }

  lemma Footprints(c: Scope, o: Env, order: seq<Name>, base: int)
    requires LaidOut(c, o, order, base)
    ensures (forall x, y :: x in c.vars && y in c.vars && x != y ==> Apart(o.addr[x], o.addr[y]))
       <==> (forall i :: 0 <= i < |order| - 1 ==> !c.vars[order[i]].TBool? && !c.vars[order[i]].TChar?)
  {
    hide At;
    if WideButLast(c, order) {
      forall x, y | x in c.vars && y in c.vars && x != y ensures Apart(o.addr[x], o.addr[y]) {
        var i :| 0 <= i < |order| && order[i] == x;
        var j :| 0 <= j < |order| && order[j] == y;
        AllApart(c, order, base, i, j);
      }
    } else {
      var i :| 0 <= i < |order| - 1 && (c.vars[order[i]].TBool? || c.vars[order[i]].TChar?);
      BackToBack(c, order, base, i);
      assert order[i] != order[i + 1] && !Apart(o.addr[order[i]], o.addr[order[i + 1]]);
    }
  }

  lemma {:induction false} ProtoReads(ts: seq<Ty>)
    ensures |Proto(ts)| == |ts| && forall i :: 0 <= i < |ts| ==> Proto(ts)[i] == ts[i].TDouble?
  {
    if ts != [] {
      ProtoReads(ts[1..]);
    }
  }

  /** What the rest of the linked program provides: three format strings, and C functions that read the
      arguments their declarations list, fmod among them. */
  ghost predicate LinkedFunctions(c: Scope, o: Env) {
    && o.format.Keys == {FmtUnsigned, FmtChar, FmtFloat}
    && (forall f, g :: f in o.format && g in o.format && f != g ==> o.format[f] != o.format[g])
    && (forall f :: f in c.funcs ==>
          && f in o.protos && |o.protos[f]| == |c.funcs[f].params|
          && forall i :: 0 <= i < |o.protos[f]| ==> o.protos[f][i] == c.funcs[f].params[i].TDouble?)
    && Id("fmod") in o.protos && o.protos[Id("fmod")] == [true, true]
  }

  lemma LinkedParts(c: Scope, o: Env, order: seq<Name>, base: int)
    requires LaidOut(c, o, order, base) && base > 0 && LinkedFunctions(c, o)
    ensures Linked(c, o)
       <==> (forall x, y :: x in c.vars && y in c.vars && x != y ==> Apart(o.addr[x], o.addr[y]))
  {
    hide At;
    forall f | f in c.funcs ensures f in o.protos && o.protos[f] == Proto(c.funcs[f].params) {
      ProtoReads(c.funcs[f].params);
    }
    forall x | x in c.vars ensures x in o.addr && o.addr[x] != 0 {
      var i :| 0 <= i < |order| && order[i] == x;
      InsideSection(c, order, base, i);
    }
    assert FmtUnsigned in o.format && FmtChar in o.format && FmtFloat in o.format;
  }

  /** A linked program with its data section loaded zeroed meets every premise of the main theorem where
      a C runtime calls it, iff no global but the last one emitted is a BOOLEAN or a CHAR. */
  lemma SectionMeetsPremise(c: Scope, o: Env, order: seq<Name>, base: int, m: State, ret: Word, caller: Stack)
    requires LaidOut(c, o, order, base) && base > 0 && LinkedFunctions(c, o)
    requires m.mem == Zeroed(base, base + Size(c, order) + 7) && m.status == Running && m.pc == 0
    requires m.rsp % 8 == 0 && m.fpu == Empty && m.stk == Cons(ret, caller) && m.trace == []
    ensures Entry(c, o, m, ret, caller)
       <==> (forall i :: 0 <= i < |order| - 1 ==> !c.vars[order[i]].TBool? && !c.vars[order[i]].TChar?)
  {
    hide LaidOut, LinkedFunctions, Linked, Represents, Zeroed, Size;
    LinkedParts(c, o, order, base);
    Footprints(c, o, order, base);
    ZeroedRepresents(c, o, order, base);
  }

  lemma ZeroedRepresents(c: Scope, o: Env, order: seq<Name>, base: int)
    requires LaidOut(c, o, order, base) && base > 0
    ensures Represents(c, o, Initial(c), Zeroed(base, base + Size(c, order) + 7))
  {
    hide At, Load;
    var mem := Zeroed(base, base + Size(c, order) + 7);
    forall x | x in c.vars
      ensures x in o.addr && Mapped(mem, o.addr[x]) && Load(mem, o.addr[x]) == Enc(o, Initial(c)[x])
    {
      var i :| 0 <= i < |order| && order[i] == x;
      InsideSection(c, order, base, i);
      ZeroLoad(mem, o.addr[x]);
    }
    assert 0 !in mem;
  }
}
