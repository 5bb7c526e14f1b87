/** Expressions and calls of every accepted program, departures included: the code pushes one word of
    the type, or faults where it divides by zero or goes through null. */
module ExprSafety {
  import opened Words
  import opened Syntax
  import opened Typing
  import opened Machine
  import opened Emission
  import opened Semantics
  import opened Soundness
  import opened Simulation
  import opened Steps
  import opened Fragments
  import opened ExprSim

  // ---------- expressions ----------

  lemma Loosely(P: seq<Instr>, o: Env, m: State, n: nat, len: nat, rest: Stack, rsp: int, r: Result, calls: bool,
                rdx: bool)
    requires Mirrors(P, o, m, n, len, rest, rsp, r, calls, rdx)
    ensures Mirrors(P, o, m, n, len, rest, rsp, r, true, true)
  {
    hide Step, Run;
  }

  /** The value of a type without pointers that a word stands for. */
  function Reading(t: Ty, w: Word): Value {
    match t
    case TDouble => VDouble(w)
    case TChar => VChar(w)
    case _ => VInt(w)
  }

  lemma LiteralSettles(P: seq<Instr>, c: Scope, o: Env, t: Token, m: State) returns (n: nat, r: Result)
    requires IsLiteral(t) && CodeAt(P, m.pc, LoadImm(LiteralWord(t))) && m.status == Running
    ensures Clean(r) && Sound(c, r, LiteralTy(t))
    ensures Mirrors(P, o, m, n, |LoadImm(LiteralWord(t))|, m.stk, m.rsp - 8, r, true, true)
  {
    hide Step, Run, LoadImm;
    n := LoadImmRuns(P, o, m, LiteralWord(t));
    r := Val(Reading(LiteralTy(t), LiteralEmitted(LiteralWord(t))), m.trace, true);
  }

  lemma BinSettles(P: seq<Instr>, c: Scope, o: Env, m: State, op: BinOp, t: Ty, a: Value, b: Value, rest: Stack)
    returns (n: nat, r: Result)
    requires CodeAt(P, m.pc, BinCode(op, t)) && Ready(m) && Linked(c, o)
    requires m.stk == Cons(Enc(o, b), Cons(Enc(o, a), rest))
    requires CheckBin(op, Some(t), Some(t)) == Some(t) && HasType(c, a, t) && HasType(c, b, t)
    ensures Clean(r) && Sound(c, r, t) && Mirrors(P, o, m, n, |BinCode(op, t)|, rest, m.rsp + 8, r, true, true)
  {
    hide Step, Run;
    match t
    case TInt =>
      n := IntBinRuns(P, o, m, op, a.w, b.w, rest);
      r := if (op == OpDiv || op == OpMod) && b.w == 0 then Trap(DivisionByZero, m.trace, true)
           else Val(VInt(IntEmitted(op, a.w, b.w)), m.trace, true);
    case TBool =>
      n := IntBinRuns(P, o, m, op, Truth(a.b), Truth(b.b), rest);
      OrTruth(a.b, b.b);
      r := Val(VBool(if op == OpOr then a.b || b.b else a.b), m.trace, true);
    case TDouble =>
      if op == OpMod {
        n := FmodRuns(P, o, m, a.bits, b.bits, rest);
        var tr := m.trace + [Called(FMOD, [a.bits, b.bits])];
        r := Val(VDouble(Get(o.foreign(tr), XMM(0))), tr, true);
      } else {
        DoubleOpRuns(P, o, m, op, a.bits, b.bits, rest);
        n := 6;
        r := Val(VDouble(o.fl.arith(op, a.bits, b.bits)), m.trace, true);
      }
  }

  lemma RelSettles(P: seq<Instr>, c: Scope, o: Env, m: State, op: RelOp, t: Ty, tag: nat, a: Value, b: Value,
                   rest: Stack)
    returns (n: nat, r: Result)
    requires CodeAt(P, m.pc, RelCode(op, t, tag)) && Ready(m) && UniqueLabels(P)
    requires m.stk == Cons(Enc(o, b), Cons(Enc(o, a), rest))
    requires IsArithmetic(t) && HasType(c, a, t) && HasType(c, b, t)
    ensures Clean(r) && Sound(c, r, TBool) && Mirrors(P, o, m, n, |RelCode(op, t, tag)|, rest, m.rsp + 8, r, true, true)
  {
    hide Step, Run;
    if t.TInt? {
      n := IntRelRuns(P, o, m, op, tag, a.w, b.w, rest);
      r := Val(VBool(RelInt(op, a.w, b.w)), m.trace, true);
    } else {
      n := FloatRelRuns(P, o, m, op, tag, a.bits, b.bits, rest);
      r := Val(VBool(Holds(JumpCond(op), FloatFlags(o.fl.compare(a.bits, b.bits)))), m.trace, true);
    }
  }

  lemma ConvSettles(P: seq<Instr>, c: Scope, o: Env, m: State, v: Value, from: Ty, to: Ty, rest: Stack)
    returns (n: nat, r: Result)
    requires CodeAt(P, m.pc, ConvCode(from, to)) && Ready(m) && m.stk == Cons(Enc(o, v), rest)
    requires HasType(c, v, from) && CheckConv(Some(from), Some(to)) == Some(to)
    ensures Clean(r) && Sound(c, r, to) && Mirrors(P, o, m, n, |ConvCode(from, to)|, rest, m.rsp, r, true, true)
  {
    hide Step, Run;
    n := ConvRuns(P, c, o, m, v, from, to, rest);
    r := Val(if to.TBool? then v else Reading(to, ConvEmitted(o, v, from, to)), m.trace, true);
  }

  /** Every expression, from every state that represents some store: the code pushes one word of its
      type, or faults on a division by zero or a null pointer. */
  lemma {:induction false} ExprSettles(P: seq<Instr>, c: Scope, o: Env, e: Expr, tag: nat, st: Globals, m: State)
    returns (n: nat, r: Result)
    requires Start(P, c, o, st, m) && CheckExpr(c, e).Some? && CodeAt(P, m.pc, ExprCode(c, e, tag).code)
    ensures Clean(r) && Sound(c, r, CheckExpr(c, e).value)
    ensures Mirrors(P, o, m, n, |ExprCode(c, e, tag).code|, m.stk, m.rsp - 8, r, true, true)
    decreases e, 2
  {
    hide Step, Run, LoadImm;
    match e
    case Lit(t) => n, r := LiteralSettles(P, c, o, t, m);
    case Var(x) =>
      n := VarRuns(P, c, o, x, st, m);
      r := Val(st[x], m.trace, true);
    case Ref(x) =>
      n := RefRuns(P, c, o, x, m);
      r := Val(VPtr(Some(x)), m.trace, true);
    case Paren(a) => n, r := ExprSettles(P, c, o, a, tag, st, m);
    case Deref(a) => n, r := DerefSettles(P, c, o, a, tag, st, m);
    case Negate(a) => n, r := NegateSettles(P, c, o, a, tag, st, m);
    case Bin(_, _, _) => n, r := BothSettle(P, c, o, e, tag, st, m);
    case Rel(_, _, _) => n, r := BothSettle(P, c, o, e, tag, st, m);
    case Conv(a, te) => n, r := ConvertSettles(P, c, o, a, te, tag, st, m);
    case Call(_, _) => n, r := CallSettles(P, c, o, e, tag, st, m);
  }

  /** What follows the code of an operand whose value is already on the stack. */
  lemma After(P: seq<Instr>, o: Env, m: State, n: nat, len: nat, q: Result, k: nat, len': nat, rest: Stack, rsp: int,
              r: Result)
    requires q.Val? && Clean(q) && Mirrors(P, o, m, n, len, m.stk, m.rsp - 8, q, true, true)
    requires Mirrors(P, o, Run(P, o, m, n), k, len', rest, rsp, r, true, true)
    ensures Mirrors(P, o, m, n + k, len + len', rest, rsp, r, true, true)
  {
    hide Step, Run;
    Prefixed(P, o, m, n, len, Run(P, o, m, n).stk, m.rsp - 8, q.tr, true, true, k, len', rest, rsp, r, true, true);
  }

  lemma {:induction false} DerefSettles(P: seq<Instr>, c: Scope, o: Env, a: Expr, tag: nat, st: Globals, m: State)
    returns (n: nat, r: Result)
    requires Start(P, c, o, st, m) && CheckExpr(c, Deref(a)).Some? && CodeAt(P, m.pc, ExprCode(c, Deref(a), tag).code)
    ensures Clean(r) && Sound(c, r, CheckExpr(c, Deref(a)).value)
    ensures Mirrors(P, o, m, n, |ExprCode(c, Deref(a), tag).code|, m.stk, m.rsp - 8, r, true, true)
    decreases a, 3
  {
    hide Step, Run, Start, Ready, Linked, Represents, Mirrors, DerefMeaning;
    var fa := ExprCode(c, a, tag).code;
    CodeSplit(P, m.pc, fa, LOAD_POINTED);
    n, r := ExprSettles(P, c, o, a, tag, st, m);
    if r.Val? {
      Pushing(P, c, o, st, m, n, |fa|, r, true, true);
      var m1 := Run(P, o, m, n);
      var k := DerefRuns(P, c, o, m1, r.v, CheckExpr(c, Deref(a)).value, st, m.stk);
      var q := DerefMeaning(st, r.v, r.tr);
      Loosely(P, o, m1, k, 2, m.stk, m1.rsp, q, false, false);
      After(P, o, m, n, |fa|, r, k, 2, m.stk, m.rsp - 8, q);
      StartTyped(P, c, o, st, m1);
      DerefSound(c, st, r.v, r.tr, CheckExpr(c, Deref(a)).value);
      n, r := n + k, q;
    } else {
      TrapKept(P, o, m, n, |fa|, |ExprCode(c, Deref(a), tag).code|, m.stk, m.stk, m.rsp - 8, m.rsp - 8, r);
    }
  }

  lemma StartTyped(P: seq<Instr>, c: Scope, o: Env, st: Globals, m: State)
    requires Start(P, c, o, st, m)
    ensures WellTyped(c, st)
  {}

  /** A trap of an operand is the trap of the whole. */
  lemma TrapKept(P: seq<Instr>, o: Env, m: State, n: nat, len: nat, len': nat, rest: Stack, rest': Stack, rsp: int,
                 rsp': int, r: Result)
    requires !r.Val? && Mirrors(P, o, m, n, len, rest, rsp, r, true, true)
    ensures Mirrors(P, o, m, n, len', rest', rsp', r, true, true)
  {}

  lemma {:induction false} NegateSettles(P: seq<Instr>, c: Scope, o: Env, a: Expr, tag: nat, st: Globals, m: State)
    returns (n: nat, r: Result)
    requires Start(P, c, o, st, m) && CheckExpr(c, Negate(a)).Some? && CodeAt(P, m.pc, ExprCode(c, Negate(a), tag).code)
    ensures Clean(r) && Sound(c, r, TBool)
    ensures Mirrors(P, o, m, n, |ExprCode(c, Negate(a), tag).code|, m.stk, m.rsp - 8, r, true, true)
    decreases a, 3
  {
    hide Step, Run, Start, Linked, Represents;
    var fa := ExprCode(c, a, tag).code;
    CodeSplit(P, m.pc, fa, [NotTop]);
    n, r := ExprSettles(P, c, o, a, tag, st, m);
    if r.Val? {
      Pushing(P, c, o, st, m, n, |fa|, r, true, true);
      NotRuns(P, o, Run(P, o, m, n), r.v.b, m.stk);
      var q := Val(VBool(!r.v.b), r.tr, true);
      After(P, o, m, n, |fa|, r, 1, 1, m.stk, m.rsp - 8, q);
      n, r := n + 1, q;
    } else {
      TrapKept(P, o, m, n, |fa|, |fa| + 1, m.stk, m.stk, m.rsp - 8, m.rsp - 8, r);
    }
  }

  lemma {:induction false} ConvertSettles(P: seq<Instr>, c: Scope, o: Env, a: Expr, te: TypeExpr, tag: nat,
                                          st: Globals, m: State)
    returns (n: nat, r: Result)
    requires Start(P, c, o, st, m) && CheckExpr(c, Conv(a, te)).Some?
    requires CodeAt(P, m.pc, ExprCode(c, Conv(a, te), tag).code)
    ensures Clean(r) && Sound(c, r, CheckExpr(c, Conv(a, te)).value)
    ensures Mirrors(P, o, m, n, |ExprCode(c, Conv(a, te), tag).code|, m.stk, m.rsp - 8, r, true, true)
    decreases a, 3
  {
    hide Step, Run, Start, Linked, Represents, Mirrors, ConvCode, CheckExpr, ExprCode, CheckConv, Eval;
    ConvShape(c, o, a, te, tag, st, m.trace);
    var fa := ExprCode(c, a, tag).code;
    var from, to := CheckExpr(c, a).value, CheckExpr(c, Conv(a, te)).value;
    CodeSplit(P, m.pc, fa, ConvCode(from, to));
    n, r := ExprSettles(P, c, o, a, tag, st, m);
    if r.Val? {
      Pushing(P, c, o, st, m, n, |fa|, r, true, true);
      var k, q := ConvSettles(P, c, o, Run(P, o, m, n), r.v, from, to, m.stk);
      After(P, o, m, n, |fa|, r, k, |ConvCode(from, to)|, m.stk, m.rsp - 8, q);
      n, r := n + k, q;
    } else {
      TrapKept(P, o, m, n, |fa|, |fa| + |ConvCode(from, to)|, m.stk, m.stk, m.rsp - 8, m.rsp - 8, r);
    }
  }

  /** The code behind the two operands of a binary node. */
  function NodeCode(c: Scope, e: Expr, tag: nat): seq<Instr>
    requires e.Bin? || e.Rel?
  {
    var t := TyOf(c, e.l);
    if e.Bin? then BinCode(e.op, t) else RelCode(e.rel, t, OperandsCode(c, e, tag).tag + 1)
  }

  /** The operator of a binary node on two words of the operand type. */
  lemma NodeSettles(P: seq<Instr>, c: Scope, o: Env, e: Expr, tag: nat, st: Globals, a: Value, b: Value, m: State,
                    rest: Stack)
    returns (n: nat, r: Result)
    requires (e.Bin? || e.Rel?) && CheckExpr(c, e).Some? && Start(P, c, o, st, m)
    requires CodeAt(P, m.pc, NodeCode(c, e, tag)) && m.stk == Cons(Enc(o, b), Cons(Enc(o, a), rest))
    requires HasType(c, a, TyOf(c, e.l)) && HasType(c, b, TyOf(c, e.l))
    ensures Clean(r) && Sound(c, r, CheckExpr(c, e).value)
    ensures Mirrors(P, o, m, n, |NodeCode(c, e, tag)|, rest, m.rsp + 8, r, true, true)
  {
    hide Step, Run, Mirrors, BinCode, RelCode, HasType, OperandsCode, Sound;
    if e.Bin? {
      n, r := BinSettles(P, c, o, m, e.op, TyOf(c, e.l), a, b, rest);
    } else {
      n, r := RelSettles(P, c, o, m, e.rel, TyOf(c, e.l), OperandsCode(c, e, tag).tag + 1, a, b, rest);
    }
  }

  lemma NodeLayout(P: seq<Instr>, c: Scope, e: Expr, tag: nat, pc: int)
    requires (e.Bin? || e.Rel?) && CodeAt(P, pc, ExprCode(c, e, tag).code) && CheckExpr(c, e).Some?
    ensures var fl := ExprCode(c, e.l, tag); var fr := ExprCode(c, e.r, fl.tag); var node := NodeCode(c, e, tag);
      && CodeAt(P, pc, fl.code) && CodeAt(P, pc + |fl.code|, fr.code) && CodeAt(P, pc + |fl.code| + |fr.code|, node)
      && |ExprCode(c, e, tag).code| == |fl.code| + |fr.code| + |node|
      && CheckExpr(c, e.l) == Some(TyOf(c, e.l)) && CheckExpr(c, e.r) == Some(TyOf(c, e.l))
  {
    hide BinCode, RelCode;
    var fl := ExprCode(c, e.l, tag);
    var fr := ExprCode(c, e.r, fl.tag);
    assert OperandsCode(c, e, tag).code == fl.code + fr.code;
    assert ExprCode(c, e, tag).code == fl.code + fr.code + NodeCode(c, e, tag);
    CodeSplit(P, pc, fl.code + fr.code, NodeCode(c, e, tag));
    CodeSplit(P, pc, fl.code, fr.code);
  }

  lemma {:induction false} BothSettle(P: seq<Instr>, c: Scope, o: Env, e: Expr, tag: nat, st: Globals, m: State)
    returns (n: nat, r: Result)
    requires (e.Bin? || e.Rel?) && Start(P, c, o, st, m) && CheckExpr(c, e).Some?
    requires CodeAt(P, m.pc, ExprCode(c, e, tag).code)
    ensures Clean(r) && Sound(c, r, CheckExpr(c, e).value)
    ensures Mirrors(P, o, m, n, |ExprCode(c, e, tag).code|, m.stk, m.rsp - 8, r, true, true)
    decreases e, 1
  {
    hide Step, Run, Start, Ready, Linked, Represents, Mirrors, Sound, HasType, CheckExpr, ExprCode, NodeCode;
    NodeLayout(P, c, e, tag, m.pc);
    var fl := ExprCode(c, e.l, tag);
    var code := ExprCode(c, e, tag).code;
    n, r := ExprSettles(P, c, o, e.l, tag, st, m);
    if r.Val? {
      Pushing(P, c, o, st, m, n, |fl.code|, r, true, true);
      SoundValue(c, r, TyOf(c, e.l));
      var k, q := RightSettles(P, c, o, e, tag, st, r.v, Run(P, o, m, n), m.stk);
      After(P, o, m, n, |fl.code|, r, k, |code| - |fl.code|, m.stk, m.rsp - 8, q);
      n, r := n + k, q;
    } else {
      TrapKept(P, o, m, n, |fl.code|, |code|, m.stk, m.stk, m.rsp - 8, m.rsp - 8, r);
      AnyTrap(c, r, CheckExpr(c, e.l).value, CheckExpr(c, e).value);
    }
  }

  /** The right operand and the operator, with the left operand on the stack. */
  lemma {:induction false} RightSettles(P: seq<Instr>, c: Scope, o: Env, e: Expr, tag: nat, st: Globals, a: Value,
                                        m: State, rest: Stack)
    returns (n: nat, r: Result)
    requires (e.Bin? || e.Rel?) && Start(P, c, o, st, m) && CheckExpr(c, e).Some?
    requires CheckExpr(c, e.r) == Some(TyOf(c, e.l))
    requires m.stk == Cons(Enc(o, a), rest) && HasType(c, a, TyOf(c, e.l))
    requires var fr := ExprCode(c, e.r, ExprCode(c, e.l, tag).tag).code;
      CodeAt(P, m.pc, fr) && CodeAt(P, m.pc + |fr|, NodeCode(c, e, tag))
    ensures Clean(r) && Sound(c, r, CheckExpr(c, e).value)
    ensures var fr := ExprCode(c, e.r, ExprCode(c, e.l, tag).tag).code;
      Mirrors(P, o, m, n, |fr| + |NodeCode(c, e, tag)|, rest, m.rsp, r, true, true)
    decreases e, 0
  {
    hide Step, Run, Start, Ready, Linked, Represents, Mirrors, HasType, CheckExpr, ExprCode, NodeCode;
    var t0 := ExprCode(c, e.l, tag).tag;
    var fr := ExprCode(c, e.r, t0).code;
    var node := |NodeCode(c, e, tag)|;
    n, r := ExprSettles(P, c, o, e.r, t0, st, m);
    if r.Val? {
      Pushing(P, c, o, st, m, n, |fr|, r, true, true);
      var m1 := Run(P, o, m, n);
      SoundValue(c, r, TyOf(c, e.l));
      var k, q := NodeSettles(P, c, o, e, tag, st, a, r.v, m1, rest);
      After(P, o, m, n, |fr|, r, k, node, rest, m.rsp, q);
      n, r := n + k, q;
    } else {
      TrapKept(P, o, m, n, |fr|, |fr| + node, m.stk, rest, m.rsp - 8, m.rsp, r);
      AnyTrap(c, r, CheckExpr(c, e.r).value, CheckExpr(c, e).value);
    }
  }

  lemma AnyTrap(c: Scope, r: Result, t: Ty, t': Ty)
    requires !r.Val? && Sound(c, r, t)
    ensures Sound(c, r, t')
  {}

  // ---------- calls ----------

  /** Nothing but registers, the trace and the program counter has changed, or a trap. */
  ghost predicate Passed(P: seq<Instr>, o: Env, m: State, n: nat, len: nat, trap: Option<TrapKind>) {
    if trap.None? then Arrives(m, Run(P, o, m, n), len, Run(P, o, m, n).trace)
    else Faults(P, o, m, n, trap.value, Run(P, o, m, n).trace)
  }

  lemma {:induction false} ArgsSettle(P: seq<Instr>, c: Scope, o: Env, args: seq<Expr>, ts: seq<Ty>, tag: nat,
                                      ri: nat, fi: nat, st: Globals, m: State) returns (n: nat, trap: Option<TrapKind>)
    requires Start(P, c, o, st, m) && CheckArgs(c, args, ts) && forall i :: 0 <= i < |ts| ==> !ts[i].TPtr?
    requires CodeAt(P, m.pc, ArgsCode(c, args, tag, ri, fi).code)
    ensures Passed(P, o, m, n, |ArgsCode(c, args, tag, ri, fi).code|, trap)
    decreases args, 4
  {
    hide Step, Run, Start, ExprCode, PopArg;
    if args == [] {
      n, trap := 0, None;
      RunNone(P, o, m);
      StartRunning(P, c, o, st, m);
    } else {
      var t := ts[0];
      var fa := ExprCode(c, args[0], tag);
      var first := fa.code + PopArg(t, ri, fi);
      var ri', fi' := if t.TDouble? then ri else ri + 1, if t.TDouble? then fi + 1 else fi;
      var rest := ArgsCode(c, args[1..], fa.tag, ri', fi').code;
      assert ArgsCode(c, args, tag, ri, fi).code == first + rest;
      CodeSplit(P, m.pc, first, rest);
      n, trap := ArgSettles(P, c, o, args[0], tag, ri, fi, st, m);
      if trap.None? {
        var m1 := Run(P, o, m, n);
        StartAfter(P, c, o, st, m, m1);
        var k;
        k, trap := ArgsSettle(P, c, o, args[1..], ts[1..], fa.tag, ri', fi', st, m1);
        RunPlus(P, o, m, n, k);
        n := n + k;
      }
    }
  }

  lemma {:induction false} ArgSettles(P: seq<Instr>, c: Scope, o: Env, e: Expr, tag: nat, ri: nat, fi: nat,
                                      st: Globals, m: State)
    returns (n: nat, trap: Option<TrapKind>)
    requires Start(P, c, o, st, m) && CheckExpr(c, e).Some? && !CheckExpr(c, e).value.TPtr?
    requires CodeAt(P, m.pc, ExprCode(c, e, tag).code + PopArg(CheckExpr(c, e).value, ri, fi))
    ensures Passed(P, o, m, n, |ExprCode(c, e, tag).code + PopArg(CheckExpr(c, e).value, ri, fi)|, trap)
    decreases e, 3
  {
    hide Step, Run, Start, Linked, Represents, PopArg, CheckExpr, ExprCode;
    var t := CheckExpr(c, e).value;
    var fe := ExprCode(c, e, tag).code;
    CodeSplit(P, m.pc, fe, PopArg(t, ri, fi));
    var r;
    n, r := ExprSettles(P, c, o, e, tag, st, m);
    if r.Val? {
      Pushing(P, c, o, st, m, n, |fe|, r, true, true);
      PopArgRuns(P, o, Run(P, o, m, n), r.v, t, ri, fi, m.stk);
      RunPlus(P, o, m, n, |PopArg(t, ri, fi)|);
      n, trap := n + |PopArg(t, ri, fi)|, None;
    } else {
      trap := Some(r.k);
    }
  }

  /** A call: its result, if any, is on the stack. */
  lemma {:induction false} InvokeSettles(P: seq<Instr>, c: Scope, o: Env, f: Name, args: seq<Expr>, tag: nat,
                                         st: Globals, m: State)
    returns (n: nat, trap: Option<TrapKind>, tr: Trace)
    requires Start(P, c, o, st, m) && f in c.funcs && Callable(c.funcs[f]) && CheckArgs(c, args, c.funcs[f].params)
    requires CodeAt(P, m.pc, ArgsCode(c, args, tag, 0, 0).code + FinishCall(f, c.funcs[f].ret))
    ensures var ret := c.funcs[f].ret;
      if trap.Some? then Faults(P, o, m, n, trap.value, tr)
      else Reaches(P, o, m, n, |ArgsCode(c, args, tag, 0, 0).code| + |FinishCall(f, ret)|,
                   if ret.None? then m.stk else Cons(ResultWord(o, tr, ret.value), m.stk),
                   if ret.None? then m.rsp else m.rsp - 8, tr, true, true)
    decreases args, 5
  {
    hide Step, Run, Start, FinishCall, ArgsCode, Proto;
    var ret := c.funcs[f].ret;
    var fa := ArgsCode(c, args, tag, 0, 0).code;
    CodeSplit(P, m.pc, fa, FinishCall(f, ret));
    n, trap := ArgsSettle(P, c, o, args, c.funcs[f].params, tag, 0, 0, st, m);
    var m1 := Run(P, o, m, n);
    tr := m1.trace;
    if trap.None? {
      StartAfter(P, c, o, st, m, m1);
      StartProto(P, c, o, st, m, f);
      tr := m1.trace + [Called(f, ReadArgs(o.protos[f], m1.regs, 0, 0))];
      var k := FinishCallRuns(P, o, m1, f, ret);
      RunPlus(P, o, m, n, k);
      n := n + k;
    }
  }

  lemma {:induction false} CallSettles(P: seq<Instr>, c: Scope, o: Env, e: Expr, tag: nat, st: Globals, m: State)
    returns (n: nat, r: Result)
    requires e.Call? && Start(P, c, o, st, m) && CheckExpr(c, e).Some? && CodeAt(P, m.pc, ExprCode(c, e, tag).code)
    ensures Clean(r) && Sound(c, r, CheckExpr(c, e).value)
    ensures Mirrors(P, o, m, n, |ExprCode(c, e, tag).code|, m.stk, m.rsp - 8, r, true, true)
    decreases e, 1
  {
    hide Step, Run, Start, FinishCall, ArgsCode;
    var trap, tr;
    n, trap, tr := InvokeSettles(P, c, o, e.f, e.args, tag, st, m);
    var t := c.funcs[e.f].ret.value;
    r := if trap.Some? then Trap(trap.value, tr, true) else Val(Reading(t, ResultWord(o, tr, t)), tr, true);
  }
}
