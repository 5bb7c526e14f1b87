/** What the operators compute, in plain numbers: nothing here is stated through the functions that the
    machine and the meaning of the trees share. */
module Arithmetic {
  import opened Words
  import opened Memory
  import opened Syntax
  import opened Typing
  import opened Machine
  import opened Emission
  import opened Semantics
  import opened Simulation
  import opened Steps
  import opened Fragments
  import opened Departures

  // ---------- INTEGER instructions ----------

  /** The state after the code: further on, with `w` in place of the two operands. */
  ghost predicate Computes(P: seq<Instr>, o: Env, m: State, n: nat, len: nat, w: Word, rest: Stack) {
    var m' := Run(P, o, m, n);
    && m'.status == Running && m'.pc == m.pc + len && m'.stk == Cons(w, rest) && m'.rsp == m.rsp + 8
    && m'.mem == m.mem && m'.trace == m.trace && m'.rbp == m.rbp && m'.fpu == m.fpu
  }

  /** `+` on INTEGER is addition, less 2^64 if the sum does not fit. */
  lemma AddComputes(P: seq<Instr>, o: Env, m: State, a: Word, b: Word, rest: Stack) returns (n: nat)
    requires CodeAt(P, m.pc, [PopReg(RBX), PopReg(RAX), AddReg, PushReg(RAX)])
    requires m.status == Running && m.stk == Cons(b, Cons(a, rest))
    ensures BinCode(OpAdd, TInt) == [PopReg(RBX), PopReg(RAX), AddReg, PushReg(RAX)]
    ensures a + b < 0x1_0000_0000_0000_0000 ==> Computes(P, o, m, n, 4, a + b, rest)
    ensures a + b >= 0x1_0000_0000_0000_0000 ==> Computes(P, o, m, n, 4, a + b - 0x1_0000_0000_0000_0000, rest)
  {
    hide Run, CodeAt, Wrap;
    assert [PopReg(RBX), PopReg(RAX), AddReg, PushReg(RAX)] == POP_INTS + IntOp(OpAdd);
    n := IntBinRuns(P, o, m, OpAdd, a, b, rest);
    WrapOnce(a + b);
  }

  /** `-` on INTEGER is subtraction, plus 2^64 if the difference is negative. */
  lemma SubComputes(P: seq<Instr>, o: Env, m: State, a: Word, b: Word, rest: Stack) returns (n: nat)
    requires CodeAt(P, m.pc, [PopReg(RBX), PopReg(RAX), SubReg, PushReg(RAX)])
    requires m.status == Running && m.stk == Cons(b, Cons(a, rest))
    ensures BinCode(OpSub, TInt) == [PopReg(RBX), PopReg(RAX), SubReg, PushReg(RAX)]
    ensures a >= b ==> Computes(P, o, m, n, 4, a - b, rest)
    ensures a < b ==> Computes(P, o, m, n, 4, a - b + 0x1_0000_0000_0000_0000, rest)
  {
    hide Run, CodeAt, Wrap;
    assert [PopReg(RBX), PopReg(RAX), SubReg, PushReg(RAX)] == POP_INTS + IntOp(OpSub);
    n := IntBinRuns(P, o, m, OpSub, a, b, rest);
    WrapOnce(a - b);
  }

  /** `*` on INTEGER pushes the low word of the product and leaves the high word in %rdx. */
  lemma MulComputes(P: seq<Instr>, o: Env, m: State, a: Word, b: Word, rest: Stack) returns (n: nat, low: Word)
    requires CodeAt(P, m.pc, [PopReg(RBX), PopReg(RAX), MulReg, PushReg(RAX)])
    requires m.status == Running && m.stk == Cons(b, Cons(a, rest))
    ensures BinCode(OpMul, TInt) == [PopReg(RBX), PopReg(RAX), MulReg, PushReg(RAX)]
    ensures Computes(P, o, m, n, 4, low, rest)
    ensures low + 0x1_0000_0000_0000_0000 * Get(Run(P, o, m, n).regs, RDX) == a * b
  {
    hide Run, CodeAt, Wrap;
    assert [PopReg(RBX), PopReg(RAX), MulReg, PushReg(RAX)] == POP_INTS + IntOp(OpMul);
    n := IntBinRuns(P, o, m, OpMul, a, b, rest);
    low := Wrap(a * b);
    Halves(a, b);
  }

  lemma Halves(a: Word, b: Word)
    ensures Wrap(a * b) + 0x1_0000_0000_0000_0000 * Wrap(a * b / 0x1_0000_0000_0000_0000) == a * b
  {
    HighWord(a, b);
    Division(a * b, 0x1_0000_0000_0000_0000);
    WrapOnce(a * b / 0x1_0000_0000_0000_0000);
  }

  /** `/` and `%` on INTEGER are the same code: it divides the left operand by the right one, pushes the
      quotient and leaves the remainder in %rdx, or faults on zero. */
  lemma DivComputes(P: seq<Instr>, o: Env, m: State, op: BinOp, a: Word, b: Word, rest: Stack)
    returns (n: nat, q: Word, r: Word)
    requires op == OpDiv || op == OpMod
    requires CodeAt(P, m.pc, [PopReg(RBX), PopReg(RAX), MovImm(0, RDX), DivReg, PushReg(RAX)])
    requires m.status == Running && m.stk == Cons(b, Cons(a, rest))
    ensures BinCode(op, TInt) == [PopReg(RBX), PopReg(RAX), MovImm(0, RDX), DivReg, PushReg(RAX)]
    ensures b == 0 ==> Faults(P, o, m, n, DivisionByZero, m.trace)
    ensures b > 0 ==> Computes(P, o, m, n, 5, q, rest) && Get(Run(P, o, m, n).regs, RDX) == r
    ensures b > 0 ==> a == q * b + r && r < b
  {
    hide Run, CodeAt, Faults;
    assert [PopReg(RBX), PopReg(RAX), MovImm(0, RDX), DivReg, PushReg(RAX)] == POP_INTS + IntOp(op);
    n := IntBinRuns(P, o, m, op, a, b, rest);
    q, r := 0, 0;
    if b > 0 {
      DivLess(a, b);
      Division(a, b);
      q, r := a / b, a % b;
    }
  }

  /** A comparison of INTEGERs pushes all ones if it holds of the unsigned numbers, and zero if not. */
  lemma CompareComputes(P: seq<Instr>, o: Env, m: State, op: RelOp, tag: nat, a: Word, b: Word, rest: Stack)
    returns (n: nat, w: Word)
    requires CodeAt(P, m.pc, RelCode(op, TInt, tag)) && UniqueLabels(P)
    requires m.status == Running && m.stk == Cons(b, Cons(a, rest))
    ensures Computes(P, o, m, n, 9, w, rest)
    ensures w == 0xFFFF_FFFF_FFFF_FFFF || w == 0
    ensures op == RelEqu ==> (w > 0 <==> a == b)
    ensures op == RelDiff ==> (w > 0 <==> a < b || a > b)
    ensures op == RelInf ==> (w > 0 <==> a < b)
    ensures op == RelSup ==> (w > 0 <==> a > b)
    ensures op == RelInfe ==> (w > 0 <==> a < b || a == b)
    ensures op == RelSupe ==> (w > 0 <==> a > b || a == b)
  {
    hide Run, CodeAt, UniqueLabels;
    assert RelCode(op, TInt, tag) == POP_INTS + [CmpReg] + Materialise(JumpCond(op), tag);
    n := IntRelRuns(P, o, m, op, tag, a, b, rest);
    w := Truth(RelInt(op, a, b));
  }

  /** DOUBLE to INTEGER: what the x87 gives for the number, a negative one plus 2^64, and 2^63 for a number
      out of range. */
  lemma FloatToIntegerComputes(P: seq<Instr>, o: Env, m: State, bits: Word, rest: Stack)
    requires CodeAt(P, m.pc, [Fld(0), Fistp]) && m.status == Running && m.stk == Cons(bits, rest) && Depth(m.fpu) <= 6
    ensures var i := o.fl.toInt(bits); var m' := Run(P, o, m, 2);
      && m'.status == Running && m'.pc == m.pc + 2 && m'.rsp == m.rsp && m'.fpu == m.fpu
      && (0 <= i < 0x8000_0000_0000_0000 ==> m'.stk == Cons(i, rest))
      && (-0x8000_0000_0000_0000 <= i < 0 ==> m'.stk == Cons(i + 0x1_0000_0000_0000_0000, rest))
      && (!(-0x8000_0000_0000_0000 <= i < 0x8000_0000_0000_0000) ==> m'.stk == Cons(0x8000_0000_0000_0000, rest))
  {
    hide Run, CodeAt, Wrap;
    ToIntegerRuns(P, o, m, bits, rest);
    WrapOnce(o.fl.toInt(bits));
  }

  /** The increment of a FOR: the largest word is followed by zero. */
  lemma IncrementComputes(P: seq<Instr>, o: Env, m: State, x: Name, w: Word)
    requires 0 <= m.pc < |P| && P[m.pc] == IncVar(x) && m.status == Running
    requires x in o.addr && Mapped(m.mem, o.addr[x]) && Load(m.mem, o.addr[x]) == w
    ensures var m' := Run(P, o, m, 1);
      && m'.status == Running && m'.pc == m.pc + 1 && m'.stk == m.stk && Mapped(m'.mem, o.addr[x])
      && Load(m'.mem, o.addr[x]) == if w == 0xFFFF_FFFF_FFFF_FFFF then 0 else w + 1
  {
    hide Run, Load, Store, Mapped, Wrap;
    DoIncVar(P, o, m, x);
    Run1(P, o, m);
    WrapOnce(w + 1);
    LoadOwnStore(m.mem, o.addr[x], Wrap(w + 1));
  }

  // ---------- the meaning of the operators ----------

  /** Both operands of an operator evaluate, left before right, with the flag up. */
  ghost predicate Operates(c: Scope, o: Env, l: Expr, r: Expr, st: Globals, tr: Trace, a: Value, b: Value, tr': Trace) {
    exists tr1 :: Eval(c, o, l, st, tr) == Val(a, tr1, true) && Eval(c, o, r, st, tr1) == Val(b, tr', true)
  }

  lemma BothOperands(c: Scope, o: Env, e: Expr, st: Globals, tr: Trace, a: Value, b: Value, tr': Trace)
    requires (e.Bin? || e.Rel?) && Operates(c, o, e.l, e.r, st, tr, a, b, tr')
    ensures EvalOperands(c, o, e, st, tr) == Both(a, b, tr', true)
  {
    hide Eval;
  }

  lemma AddMeans(c: Scope, o: Env, l: Expr, r: Expr, st: Globals, tr: Trace, a: Word, b: Word, tr': Trace)
    requires Operates(c, o, l, r, st, tr, VInt(a), VInt(b), tr')
    ensures Eval(c, o, Bin(OpAdd, l, r), st, tr)
         == Val(VInt(if a + b < 0x1_0000_0000_0000_0000 then a + b else a + b - 0x1_0000_0000_0000_0000), tr', true)
  {
    hide Operates, EvalOperands, Wrap;
    BothOperands(c, o, Bin(OpAdd, l, r), st, tr, VInt(a), VInt(b), tr');
    WrapOnce(a + b);
  }

  lemma SubMeans(c: Scope, o: Env, l: Expr, r: Expr, st: Globals, tr: Trace, a: Word, b: Word, tr': Trace)
    requires Operates(c, o, l, r, st, tr, VInt(a), VInt(b), tr')
    ensures Eval(c, o, Bin(OpSub, l, r), st, tr)
         == Val(VInt(if a >= b then a - b else a - b + 0x1_0000_0000_0000_0000), tr', true)
  {
    hide Operates, EvalOperands, Wrap;
    BothOperands(c, o, Bin(OpSub, l, r), st, tr, VInt(a), VInt(b), tr');
    WrapOnce(a - b);
  }

  lemma MulMeans(c: Scope, o: Env, l: Expr, r: Expr, st: Globals, tr: Trace, a: Word, b: Word, tr': Trace)
    returns (low: Word, high: Word)
    requires Operates(c, o, l, r, st, tr, VInt(a), VInt(b), tr')
    ensures Eval(c, o, Bin(OpMul, l, r), st, tr) == Val(VInt(low), tr', true)
    ensures low + 0x1_0000_0000_0000_0000 * high == a * b
  {
    hide Operates, EvalOperands, Wrap;
    BothOperands(c, o, Bin(OpMul, l, r), st, tr, VInt(a), VInt(b), tr');
    Halves(a, b);
    low, high := Wrap(a * b), Wrap(a * b / 0x1_0000_0000_0000_0000);
  }

  /** Division with remainder; the flag of `%` asks for both to be the same. */
  lemma DivMeans(c: Scope, o: Env, l: Expr, r: Expr, st: Globals, tr: Trace, a: Word, b: Word, tr': Trace)
    returns (q: Word, d: Word)
    requires Operates(c, o, l, r, st, tr, VInt(a), VInt(b), tr')
    ensures b == 0 ==> Eval(c, o, Bin(OpDiv, l, r), st, tr) == Trap(DivisionByZero, tr', true)
    ensures b == 0 ==> Eval(c, o, Bin(OpMod, l, r), st, tr) == Trap(DivisionByZero, tr', true)
    ensures b > 0 ==> a == q * b + d && d < b
    ensures b > 0 ==> Eval(c, o, Bin(OpDiv, l, r), st, tr) == Val(VInt(q), tr', true)
    ensures b > 0 ==> Eval(c, o, Bin(OpMod, l, r), st, tr) == Val(VInt(d), tr', q == d)
  {
    hide Operates, EvalOperands;
    BothOperands(c, o, Bin(OpDiv, l, r), st, tr, VInt(a), VInt(b), tr');
    BothOperands(c, o, Bin(OpMod, l, r), st, tr, VInt(a), VInt(b), tr');
    q, d := 0, 0;
    if b > 0 {
      DivLess(a, b);
      Division(a, b);
      q, d := a / b, a % b;
    }
  }

  /** `||` and `&&` evaluate both operands; the flag of `&&` asks for the left to imply the right. */
  lemma LogicMeans(c: Scope, o: Env, l: Expr, r: Expr, st: Globals, tr: Trace, a: bool, b: bool, tr': Trace)
    requires Operates(c, o, l, r, st, tr, VBool(a), VBool(b), tr')
    ensures Eval(c, o, Bin(OpOr, l, r), st, tr) == Val(VBool(a || b), tr', true)
    ensures Eval(c, o, Bin(OpAnd, l, r), st, tr) == Val(VBool(a && b), tr', !a || b)
  {
    hide Operates, EvalOperands;
    BothOperands(c, o, Bin(OpOr, l, r), st, tr, VBool(a), VBool(b), tr');
    BothOperands(c, o, Bin(OpAnd, l, r), st, tr, VBool(a), VBool(b), tr');
  }

  /** INTEGERs compare as unsigned numbers. */
  lemma CompareMeans(c: Scope, o: Env, l: Expr, r: Expr, st: Globals, tr: Trace, a: Word, b: Word, tr': Trace)
    requires Operates(c, o, l, r, st, tr, VInt(a), VInt(b), tr')
    ensures Eval(c, o, Rel(RelEqu, l, r), st, tr) == Val(VBool(a == b), tr', true)
    ensures Eval(c, o, Rel(RelDiff, l, r), st, tr) == Val(VBool(a != b), tr', true)
    ensures Eval(c, o, Rel(RelInf, l, r), st, tr) == Val(VBool(a < b), tr', true)
    ensures Eval(c, o, Rel(RelSup, l, r), st, tr) == Val(VBool(a > b), tr', true)
    ensures Eval(c, o, Rel(RelInfe, l, r), st, tr) == Val(VBool(a <= b), tr', true)
    ensures Eval(c, o, Rel(RelSupe, l, r), st, tr) == Val(VBool(a >= b), tr', true)
  {
    hide Operates, EvalOperands;
    forall op ensures EvalOperands(c, o, Rel(op, l, r), st, tr) == Both(VInt(a), VInt(b), tr', true) {
      BothOperands(c, o, Rel(op, l, r), st, tr, VInt(a), VInt(b), tr');
    }
  }

  /** DOUBLEs compare by their ordering. Of an unordered pair only `!=` holds, and only `>` and `>=` are
      emitted to say so. */
  lemma FloatCompareMeans(c: Scope, o: Env, l: Expr, r: Expr, st: Globals, tr: Trace, a: Word, b: Word, tr': Trace)
    requires Operates(c, o, l, r, st, tr, VDouble(a), VDouble(b), tr')
    ensures var ord := o.fl.compare(a, b); var ordered := ord != Unordered;
      && Eval(c, o, Rel(RelEqu, l, r), st, tr) == Val(VBool(ord == Same), tr', ordered)
      && Eval(c, o, Rel(RelDiff, l, r), st, tr) == Val(VBool(ord != Same), tr', ordered)
      && Eval(c, o, Rel(RelInf, l, r), st, tr) == Val(VBool(ord == Less), tr', ordered)
      && Eval(c, o, Rel(RelSup, l, r), st, tr) == Val(VBool(ord == Greater), tr', true)
      && Eval(c, o, Rel(RelInfe, l, r), st, tr) == Val(VBool(ord == Less || ord == Same), tr', ordered)
      && Eval(c, o, Rel(RelSupe, l, r), st, tr) == Val(VBool(ord == Greater || ord == Same), tr', true)
  {
    hide Operates, EvalOperands;
    forall op ensures EvalOperands(c, o, Rel(op, l, r), st, tr) == Both(VDouble(a), VDouble(b), tr', true) {
      BothOperands(c, o, Rel(op, l, r), st, tr, VDouble(a), VDouble(b), tr');
    }
  }

  /** DOUBLE arithmetic is left op right; `%` is a call of fmod with both, for its result. */
  lemma FloatMeans(c: Scope, o: Env, op: BinOp, l: Expr, r: Expr, st: Globals, tr: Trace, a: Word, b: Word, tr': Trace)
    requires Operates(c, o, l, r, st, tr, VDouble(a), VDouble(b), tr')
    ensures op == OpAdd || op == OpSub || op == OpMul || op == OpDiv ==>
              Eval(c, o, Bin(op, l, r), st, tr) == Val(VDouble(o.fl.arith(op, a, b)), tr', true)
    ensures op == OpMod ==>
              var call := tr' + [Called(Id("fmod"), [a, b])];
              Eval(c, o, Bin(op, l, r), st, tr) == Val(VDouble(Get(o.foreign(call), XMM(0))), call, true)
  {
    hide Operates, EvalOperands;
    BothOperands(c, o, Bin(op, l, r), st, tr, VDouble(a), VDouble(b), tr');
  }

  /** A literal means itself. From 2^31 up to 2^32 the emitted push means another word. */
  lemma LiteralMeans(c: Scope, o: Env, text: string, w: Word, st: Globals, tr: Trace)
    ensures Eval(c, o, Lit(IntLit(text, w)), st, tr) == Val(VInt(w), tr, w < 0x8000_0000 || w >= 0x1_0000_0000)
    ensures Eval(c, o, Lit(FloatLit(text, w)), st, tr) == Val(VDouble(w), tr, w < 0x8000_0000 || w >= 0x1_0000_0000)
    ensures Eval(c, o, Lit(CharLit(w)), st, tr) == Val(VChar(w), tr, w < 0x8000_0000 || w >= 0x1_0000_0000)
  {}

  /** `@x` is the address of x, `^` what is stored where an address leads, or a trap on null. */
  lemma PointerMeans(c: Scope, o: Env, e: Expr, x: Name, st: Globals, tr: Trace, tr': Trace)
    requires x in st
    ensures Eval(c, o, Var(x), st, tr) == Val(st[x], tr, true)
    ensures Eval(c, o, Ref(x), st, tr) == Val(VPtr(Some(x)), tr, true)
    ensures Eval(c, o, e, st, tr) == Val(VPtr(Some(x)), tr', true) ==>
              Eval(c, o, Deref(e), st, tr) == Val(st[x], tr', true)
    ensures Eval(c, o, e, st, tr) == Val(VPtr(None), tr', true) ==>
              Eval(c, o, Deref(e), st, tr) == Trap(NullDereference, tr', true)
  {}

  /** What a conversion means, and when the emitted one is that. */
  lemma ConversionMeans(c: Scope, o: Env, e: Expr, te: TypeExpr, v: Value, st: Globals, tr: Trace, tr': Trace)
    requires Eval(c, o, e, st, tr) == Val(v, tr', true) && Resolve(c.aliases, te).Some?
    ensures var to := Resolve(c.aliases, te).value; var r := Eval(c, o, Conv(e, te), st, tr);
      && (v.VInt? && to.TInt? ==> r == Val(v, tr', true))
      && (v.VDouble? && to.TDouble? ==> r == Val(v, tr', true))
      && (v.VBool? && to.TBool? ==> r == Val(v, tr', true))
      && (v.VChar? && to.TChar? ==> r == Val(v, tr', true))
      && (v.VInt? && to.TChar? ==> r == Val(VChar(v.w), tr', true))
      && (v.VBool? && to.TChar? ==> r == Val(VChar(if v.b then 1 else 0), tr', !v.b))
      && (v.VInt? && to.TDouble? ==> r == Val(VDouble(o.fl.ofInt(v.w)), tr', v.w < 0x8000_0000_0000_0000))
      && (v.VDouble? && to.TInt? && 0 <= o.fl.toInt(v.bits) < 0x8000_0000_0000_0000 ==>
            r == Val(VInt(o.fl.toInt(v.bits)), tr', true))
      && (v.VDouble? && to.TInt? && -0x8000_0000_0000_0000 <= o.fl.toInt(v.bits) < 0 ==>
            r == Val(VInt(o.fl.toInt(v.bits) + 0x1_0000_0000_0000_0000), tr', true))
      && (v.VDouble? && to.TInt? && 0x8000_0000_0000_0000 <= o.fl.toInt(v.bits) < 0x1_0000_0000_0000_0000 ==>
            r == Val(VInt(o.fl.toInt(v.bits)), tr', o.fl.toInt(v.bits) == 0x8000_0000_0000_0000))
      && (v.VDouble? && to.TChar? && 0 <= o.fl.toInt(v.bits) < 0x1_0000_0000_0000_0000 ==>
            r == Val(VChar(o.fl.toInt(v.bits)), tr', o.fl.toInt(v.bits) == v.bits))
  {
    hide Wrap;
    if v.VDouble? {
      WrapOnce(o.fl.toInt(v.bits));
    }
  }

  // ---------- statements ----------

  /** DISPLAY prints an INTEGER as an unsigned number, a BOOLEAN as 0 or 1, a CHAR as a character and a
      DOUBLE as a floating-point number. */
  lemma DisplayMeans(c: Scope, o: Env, e: Expr, v: Value, s: SourceState, tr: Trace, fuel: nat)
    requires Eval(c, o, e, s.st, s.tr) == Val(v, tr, true)
    ensures var r := Exec(c, o, Show(e), s, fuel);
      && (v.VInt? ==> r == Done(s.(tr := tr + [Printed(FmtUnsigned, v.w)]), true))
      && (v.VBool? ==> r == Done(s.(tr := tr + [Printed(FmtUnsigned, if v.b then 1 else 0)]), true))
      && (v.VChar? ==> r == Done(s.(tr := tr + [Printed(FmtChar, v.c)]), true))
      && (v.VDouble? ==> r == Done(s.(tr := tr + [Printed(FmtFloat, v.bits)]), true))
  {
    hide Eval;
  }

  /** Globals start as 0, 0.0, FALSE, the zero character and null. */
  lemma GlobalsStart(c: Scope, x: Name)
    requires x in c.vars
    ensures x in Initial(c)
    ensures c.vars[x].TInt? ==> Initial(c)[x] == VInt(0)
    ensures c.vars[x].TDouble? ==> Initial(c)[x] == VDouble(0)
    ensures c.vars[x].TBool? ==> Initial(c)[x] == VBool(false)
    ensures c.vars[x].TChar? ==> Initial(c)[x] == VChar(0)
    ensures c.vars[x].TPtr? ==> Initial(c)[x] == VPtr(None)
  {}

  /** One round of a FOR whose body finishes: the variable is one more, and zero after the largest word. */
  lemma RoundMeans(c: Scope, o: Env, x: Name, to: Expr, b: Stmt, s: SourceState, fuel: nat, v: Word, hi: Word,
                   tr: Trace, s1: SourceState)
    requires x in s.st && s.st[x] == VInt(v) && v <= hi && (v < 0x8000_0000_0000_0000 <==> hi < 0x8000_0000_0000_0000)
    requires Eval(c, o, to, s.st, s.tr) == Val(VInt(hi), tr, true)
    requires Exec(c, o, b, s.(tr := tr), fuel + 1) == Done(s1, true) && x in s1.st && s1.st[x].VInt?
    ensures ExecFor(c, o, x, to, b, s, fuel + 1) == ExecFor(c, o, x, to, b, s1.(st := s1.st[x :=
              VInt(if s1.st[x].w == 0xFFFF_FFFF_FFFF_FFFF then 0 else s1.st[x].w + 1)]), fuel)
  {
    hide Eval, Exec, Wrap;
    WrapOnce(s1.st[x].w + 1);
    var r := ExecFor(c, o, x, to, b, Bump(s1, x), fuel);
    assert Flagged(r, true) == r;
  }
}
