/** What the code of an expression leaves in the registers that pass arguments, as a function of the
    expression: a register that is already loaded keeps its word until a later argument calls out, or,
    for %rdx, multiplies or divides INTEGERs. */
module Registers {
  import opened Words
  import opened Syntax
  import opened Typing
  import opened Machine
  import opened Emission
  import opened Semantics
  import opened Soundness

  /** Expressions work in %rax and %rbx; the argument registers are among the others. */
  predicate Tracked(r: Reg) {
    r != RAX && r != RBX
  }

  function ArgTarget(t: Ty, ri: nat, fi: nat): Reg {
    if t.TDouble? then XMM(fi) else IntReg(ri)
  }

  /** `mulq` puts the high word of the product in %rdx, `divq` the remainder. */
  function AfterInt(op: BinOp, a: Word, b: Word, r: Reg, w: Word): Word {
    if r != RDX then w
    else if op == OpMul then Wrap(a * b / 0x1_0000_0000_0000_0000)
    else if (op == OpDiv || op == OpMod) && b != 0 then a % b
    else w
  }

  /** The word in a tracked register after the operator of a binary node, if it held `w`. */
  function AfterOp(o: Env, op: BinOp, a: Value, b: Value, tr: Trace, r: Reg, w: Word): Word {
    match (a, b)
    case (VInt(x), VInt(y)) => AfterInt(op, x, y, r, w)
    case (VDouble(x), VDouble(y)) =>
      if op == OpMod then Get(o.foreign(tr + [Called(FMOD, [x, y])]), r) else w
    case _ => w
  }

  /** The word in a tracked register after an expression, if it held `w` before. */
  function Leaves(c: Scope, o: Env, e: Expr, st: Globals, tr: Trace, r: Reg, w: Word): Word
    decreases e, 1
  {
    match e
    case Deref(a) => Leaves(c, o, a, st, tr, r, w)
    case Negate(a) => Leaves(c, o, a, st, tr, r, w)
    case Paren(a) => Leaves(c, o, a, st, tr, r, w)
    case Conv(a, _) => Leaves(c, o, a, st, tr, r, w)
    case Rel(_, _, _) => OperandsLeave(c, o, e, st, tr, r, w)
    case Bin(op, _, _) =>
      (match EvalOperands(c, o, e, st, tr)
       case Both(a, b, tr2, _) => AfterOp(o, op, a, b, tr2, r, OperandsLeave(c, o, e, st, tr, r, w))
       case _ => w)
    case Call(f, args) =>
      (match EvalArgs(c, o, args, st, tr)
       case Vals(vs, tr1, _) => Get(o.foreign(tr1 + [Called(f, ArgWords(vs))]), r)
       case _ => w)
    case _ => w
  }

  function OperandsLeave(c: Scope, o: Env, e: Expr, st: Globals, tr: Trace, r: Reg, w: Word): Word
    requires e.Bin? || e.Rel?
    decreases e, 0
  {
    var w1 := Leaves(c, o, e.l, st, tr, r, w);
    match Eval(c, o, e.l, st, tr)
    case Val(_, tr1, _) => Leaves(c, o, e.r, st, tr1, r, w1)
    case _ => w1
  }

  /** The word in a tracked register after the code of an argument list. */
  function ArgsLeave(c: Scope, o: Env, args: seq<Expr>, st: Globals, tr: Trace, ri: nat, fi: nat, r: Reg, w: Word): Word
    decreases |args|
  {
    if args == [] then w
    else
      match Eval(c, o, args[0], st, tr)
      case Val(v, tr1, _) =>
        var t := TyOf(c, args[0]);
        var w1 := if r == ArgTarget(t, ri, fi) then ArgWord(v) else Leaves(c, o, args[0], st, tr, r, w);
        if t.TDouble? then ArgsLeave(c, o, args[1..], st, tr1, ri, fi + 1, r, w1)
        else ArgsLeave(c, o, args[1..], st, tr1, ri + 1, fi, r, w1)
      case _ => w
  }

  /** The words that the callee reads, as written: each argument's word, or what the later arguments
      left in its register. */
  function Passed(c: Scope, o: Env, args: seq<Expr>, st: Globals, tr: Trace, ri: nat, fi: nat): seq<Word>
    decreases |args|
  {
    if args == [] then []
    else
      match Eval(c, o, args[0], st, tr)
      case Val(v, tr1, _) =>
        var t := TyOf(c, args[0]);
        var ri', fi' := if t.TDouble? then ri else ri + 1, if t.TDouble? then fi + 1 else fi;
        [ArgsLeave(c, o, args[1..], st, tr1, ri', fi', ArgTarget(t, ri, fi), ArgWord(v))]
        + Passed(c, o, args[1..], st, tr1, ri', fi')
      case _ => []
  }

  // ---------- what keeps a register ----------

  lemma OperandsTyped(c: Scope, o: Env, e: Expr, st: Globals, tr: Trace)
    requires (e.Bin? || e.Rel?) && WellTyped(c, st) && CheckExpr(c, e).Some?
    ensures CheckExpr(c, e.l).Some? && CheckExpr(c, e.r).Some? && TyOf(c, e.l) == CheckExpr(c, e.l).value
    ensures var q := EvalOperands(c, o, e, st, tr);
      q.Both? ==> HasType(c, q.a, TyOf(c, e.l)) && HasType(c, q.b, TyOf(c, e.l))
  {
    hide WellTyped, HasType, EvalOperands;
    OperandsSound(c, o, e, st, tr);
  }

  /** Code that neither calls out nor, for %rdx, multiplies or divides keeps the register. */
  lemma {:induction false} LeavesKept(c: Scope, o: Env, e: Expr, st: Globals, tr: Trace, r: Reg, w: Word)
    requires WellTyped(c, st) && CheckExpr(c, e).Some? && !CallsOut(c, e) && (r == RDX ==> !UsesRdx(c, e))
    ensures Leaves(c, o, e, st, tr, r, w) == w
    decreases e, 1
  {
    hide WellTyped, Eval, EvalOperands, EvalArgs;
    match e
    case Deref(a) => LeavesKept(c, o, a, st, tr, r, w);
    case Negate(a) => LeavesKept(c, o, a, st, tr, r, w);
    case Paren(a) => LeavesKept(c, o, a, st, tr, r, w);
    case Conv(a, _) => LeavesKept(c, o, a, st, tr, r, w);
    case Rel(_, _, _) => OperandsKept(c, o, e, st, tr, r, w);
    case Bin(_, _, _) =>
      OperandsTyped(c, o, e, st, tr);
      OperandsKept(c, o, e, st, tr, r, w);
    case _ =>
  }

  lemma {:induction false} OperandsKept(c: Scope, o: Env, e: Expr, st: Globals, tr: Trace, r: Reg, w: Word)
    requires (e.Bin? || e.Rel?) && WellTyped(c, st) && CheckExpr(c, e.l).Some? && CheckExpr(c, e.r).Some?
    requires !CallsOut(c, e.l) && !CallsOut(c, e.r) && (r == RDX ==> !UsesRdx(c, e.l) && !UsesRdx(c, e.r))
    ensures OperandsLeave(c, o, e, st, tr, r, w) == w
    decreases e, 0
  {
    hide WellTyped, Eval, CheckExpr, CallsOut, UsesRdx;
    LeavesKept(c, o, e.l, st, tr, r, w);
    var q := Eval(c, o, e.l, st, tr);
    if q.Val? {
      LeavesKept(c, o, e.r, st, q.tr, r, w);
    }
  }

  /** An argument register that is loaded before `ri` regular and `fi` DOUBLE arguments. */
  predicate LoadedBefore(r: Reg, ri: nat, fi: nat) {
    (exists i :: 0 <= i < ri && i < 6 && r == IntReg(i)) || (r.XMM? && r.i < fi)
  }

  lemma LoadedTracked(r: Reg, ri: nat, fi: nat, t: Ty)
    requires LoadedBefore(r, ri, fi) && (!t.TDouble? ==> ri < 6)
    ensures ri + fi > 0 && (r == RDX ==> ri >= 3) && r != ArgTarget(t, ri, fi)
    ensures LoadedBefore(r, if t.TDouble? then ri else ri + 1, if t.TDouble? then fi + 1 else fi)
  {}

  lemma TargetLoaded(ri: nat, fi: nat, t: Ty)
    requires !t.TDouble? ==> ri < 6
    ensures LoadedBefore(ArgTarget(t, ri, fi), if t.TDouble? then ri else ri + 1, if t.TDouble? then fi + 1 else fi)
  {}

  /** Arguments that keep loaded registers do keep them. */
  lemma {:induction false} ArgsKept(c: Scope, o: Env, args: seq<Expr>, ts: seq<Ty>, st: Globals, tr: Trace, ri: nat,
                                    fi: nat, r: Reg, w: Word)
    requires WellTyped(c, st) && CheckArgs(c, args, ts) && KeepsArgs(c, args, ri, fi) && ri + RegularCount(ts) <= 6
    requires LoadedBefore(r, ri, fi)
    ensures ArgsLeave(c, o, args, st, tr, ri, fi, r, w) == w
    decreases |args|
  {
    hide WellTyped, Eval, CheckExpr, CallsOut, UsesRdx, LoadedBefore, ArgTarget, Leaves;
    if args != [] {
      var q := Eval(c, o, args[0], st, tr);
      var t := ts[0];
      TypeOf(c, args[0], t);
      LoadedTracked(r, ri, fi, t);
      LeavesKept(c, o, args[0], st, tr, r, w);
      if q.Val? {
        ArgsKept(c, o, args[1..], ts[1..], st, q.tr, if t.TDouble? then ri else ri + 1,
                 if t.TDouble? then fi + 1 else fi, r, w);
      }
    }
  }

  lemma TypeOf(c: Scope, e: Expr, t: Ty)
    requires CheckExpr(c, e) == Some(t)
    ensures TyOf(c, e) == t
  {}

  /** So under the static condition the callee reads the argument words. */
  lemma {:induction false} KeepsPassed(c: Scope, o: Env, args: seq<Expr>, ts: seq<Ty>, st: Globals, tr: Trace,
                                       ri: nat, fi: nat)
    requires WellTyped(c, st) && CheckArgs(c, args, ts) && KeepsArgs(c, args, ri, fi) && ri + RegularCount(ts) <= 6
    requires EvalArgs(c, o, args, st, tr).Vals?
    ensures Passed(c, o, args, st, tr, ri, fi) == ArgWords(EvalArgs(c, o, args, st, tr).vs)
    decreases |args|
  {
    hide WellTyped, Eval, CheckExpr, CallsOut, UsesRdx, LoadedBefore, ArgTarget, ArgsLeave;
    if args != [] {
      var q := Eval(c, o, args[0], st, tr);
      var t := ts[0];
      TypeOf(c, args[0], t);
      var ri', fi' := if t.TDouble? then ri else ri + 1, if t.TDouble? then fi + 1 else fi;
      TargetLoaded(ri, fi, t);
      ArgsKept(c, o, args[1..], ts[1..], st, q.tr, ri', fi', ArgTarget(t, ri, fi), ArgWord(q.v));
      KeepsPassed(c, o, args[1..], ts[1..], st, q.tr, ri', fi');
      var vs := EvalArgs(c, o, args[1..], st, q.tr).vs;
      assert ([q.v] + vs)[1..] == vs;
    }
  }

  // ---------- what a call leaves ----------

  /** Only calls lengthen the trace. */
  lemma {:induction false} NoCallNoTrace(c: Scope, o: Env, e: Expr, st: Globals, tr: Trace)
    requires WellTyped(c, st) && CheckExpr(c, e).Some? && !CallsOut(c, e)
    ensures var q := Eval(c, o, e, st, tr); q.Val? ==> q.tr == tr
    decreases e, 2
  {
    hide WellTyped, HasType;
    match e
    case Deref(a) => NoCallNoTrace(c, o, a, st, tr);
    case Negate(a) => NoCallNoTrace(c, o, a, st, tr);
    case Paren(a) => NoCallNoTrace(c, o, a, st, tr);
    case Conv(a, _) => NoCallNoTrace(c, o, a, st, tr);
    case Rel(_, _, _) => NoCallOperands(c, o, e, st, tr);
    case Bin(_, _, _) => NoCallBin(c, o, e, st, tr);
    case _ =>
  }

  lemma {:induction false} NoCallOperands(c: Scope, o: Env, e: Expr, st: Globals, tr: Trace)
    requires (e.Bin? || e.Rel?) && WellTyped(c, st) && CheckExpr(c, e.l).Some? && CheckExpr(c, e.r).Some?
    requires !CallsOut(c, e.l) && !CallsOut(c, e.r)
    ensures var q := EvalOperands(c, o, e, st, tr); q.Both? ==> q.tr == tr
    decreases e, 0
  {
    hide WellTyped, Eval, CheckExpr, CallsOut;
    NoCallNoTrace(c, o, e.l, st, tr);
    if Eval(c, o, e.l, st, tr).Val? {
      NoCallNoTrace(c, o, e.r, st, tr);
    }
  }

  lemma {:induction false} NoCallBin(c: Scope, o: Env, e: Expr, st: Globals, tr: Trace)
    requires e.Bin? && WellTyped(c, st) && CheckExpr(c, e).Some? && !CallsOut(c, e)
    ensures var q := Eval(c, o, e, st, tr); q.Val? ==> q.tr == tr
    decreases e, 1
  {
    hide WellTyped, EvalOperands;
    OperandsTyped(c, o, e, st, tr);
    NoCallOperands(c, o, e, st, tr);
  }

  /** After an expression that calls out, every tracked register but %rdx holds what the last call left:
      the trace after the expression ends with that call. */
  lemma {:induction false} LastCallLeaves(c: Scope, o: Env, e: Expr, st: Globals, tr: Trace, r: Reg, w: Word)
    requires WellTyped(c, st) && CheckExpr(c, e).Some? && CallsOut(c, e) && r != RDX && Eval(c, o, e, st, tr).Val?
    ensures Leaves(c, o, e, st, tr, r, w) == Get(o.foreign(Eval(c, o, e, st, tr).tr), r)
    decreases e, 2
  {
    hide WellTyped, HasType, EvalOperands, OperandsLeave;
    match e
    case Deref(a) => LastCallLeaves(c, o, a, st, tr, r, w);
    case Negate(a) => LastCallLeaves(c, o, a, st, tr, r, w);
    case Paren(a) => LastCallLeaves(c, o, a, st, tr, r, w);
    case Conv(a, _) => LastCallLeaves(c, o, a, st, tr, r, w);
    case Rel(_, _, _) => OperandsTyped(c, o, e, st, tr); OperandsLeft(c, o, e, st, tr, r, w);
    case Bin(_, _, _) => BinLeft(c, o, e, st, tr, r, w);
    case Call(_, _) =>
  }

  lemma {:induction false} OperandsLeft(c: Scope, o: Env, e: Expr, st: Globals, tr: Trace, r: Reg, w: Word)
    requires (e.Bin? || e.Rel?) && WellTyped(c, st) && CheckExpr(c, e.l).Some? && CheckExpr(c, e.r).Some?
    requires (CallsOut(c, e.l) || CallsOut(c, e.r)) && r != RDX && EvalOperands(c, o, e, st, tr).Both?
    ensures OperandsLeave(c, o, e, st, tr, r, w) == Get(o.foreign(EvalOperands(c, o, e, st, tr).tr), r)
    decreases e, 0
  {
    hide WellTyped, Eval, CheckExpr, CallsOut, Leaves, UsesRdx;
    var q := Eval(c, o, e.l, st, tr);
    var w1 := Leaves(c, o, e.l, st, tr, r, w);
    if CallsOut(c, e.l) {
      LastCallLeaves(c, o, e.l, st, tr, r, w);
    }
    if CallsOut(c, e.r) {
      LastCallLeaves(c, o, e.r, st, q.tr, r, w1);
    } else {
      LeavesKept(c, o, e.r, st, q.tr, r, w1);
      NoCallNoTrace(c, o, e.r, st, q.tr);
    }
  }

  lemma {:induction false} BinLeft(c: Scope, o: Env, e: Expr, st: Globals, tr: Trace, r: Reg, w: Word)
    requires e.Bin? && WellTyped(c, st) && CheckExpr(c, e).Some? && CallsOut(c, e) && r != RDX
    requires Eval(c, o, e, st, tr).Val?
    ensures Leaves(c, o, e, st, tr, r, w) == Get(o.foreign(Eval(c, o, e, st, tr).tr), r)
    decreases e, 1
  {
    hide WellTyped, EvalOperands, OperandsLeave;
    OperandsTyped(c, o, e, st, tr);
    if CallsOut(c, e.l) || CallsOut(c, e.r) {
      OperandsLeft(c, o, e, st, tr, r, w);
    }
  }

  // ---------- what is left in %rdx ----------

  /** The expression writes %rdx, whatever it held before. */
  predicate WritesRdx(c: Scope, e: Expr) {
    CallsOut(c, e) || UsesRdx(c, e)
  }

  lemma {:induction false} RdxWritten(c: Scope, o: Env, e: Expr, st: Globals, tr: Trace, w: Word, w': Word)
    requires WellTyped(c, st) && CheckExpr(c, e).Some? && WritesRdx(c, e) && Eval(c, o, e, st, tr).Val?
    ensures Leaves(c, o, e, st, tr, RDX, w) == Leaves(c, o, e, st, tr, RDX, w')
    decreases e, 2
  {
    hide WellTyped, HasType, EvalOperands, OperandsLeave;
    match e
    case Deref(a) => RdxWritten(c, o, a, st, tr, w, w');
    case Negate(a) => RdxWritten(c, o, a, st, tr, w, w');
    case Paren(a) => RdxWritten(c, o, a, st, tr, w, w');
    case Conv(a, _) => RdxWritten(c, o, a, st, tr, w, w');
    case Rel(_, _, _) => OperandsTyped(c, o, e, st, tr); RdxOperands(c, o, e, st, tr, w, w');
    case Bin(_, _, _) => RdxBin(c, o, e, st, tr, w, w');
    case Call(_, _) =>
  }

  lemma {:induction false} RdxOperands(c: Scope, o: Env, e: Expr, st: Globals, tr: Trace, w: Word, w': Word)
    requires (e.Bin? || e.Rel?) && WellTyped(c, st) && CheckExpr(c, e.l).Some? && CheckExpr(c, e.r).Some?
    requires (WritesRdx(c, e.l) || WritesRdx(c, e.r)) && EvalOperands(c, o, e, st, tr).Both?
    ensures OperandsLeave(c, o, e, st, tr, RDX, w) == OperandsLeave(c, o, e, st, tr, RDX, w')
    decreases e, 0
  {
    hide WellTyped, Eval, CheckExpr, WritesRdx, Leaves;
    var q := Eval(c, o, e.l, st, tr);
    if WritesRdx(c, e.l) {
      RdxWritten(c, o, e.l, st, tr, w, w');
    } else {
      RdxWritten(c, o, e.r, st, q.tr, Leaves(c, o, e.l, st, tr, RDX, w), Leaves(c, o, e.l, st, tr, RDX, w'));
    }
  }

  lemma {:induction false} RdxBin(c: Scope, o: Env, e: Expr, st: Globals, tr: Trace, w: Word, w': Word)
    requires e.Bin? && WellTyped(c, st) && CheckExpr(c, e).Some? && WritesRdx(c, e) && Eval(c, o, e, st, tr).Val?
    ensures Leaves(c, o, e, st, tr, RDX, w) == Leaves(c, o, e, st, tr, RDX, w')
    decreases e, 1
  {
    hide WellTyped, EvalOperands, OperandsLeave;
    OperandsTyped(c, o, e, st, tr);
    if WritesRdx(c, e.l) || WritesRdx(c, e.r) {
      RdxOperands(c, o, e, st, tr, w, w');
    }
  }

  /** The trace in front of the j-th argument. */
  function TraceAt(c: Scope, o: Env, args: seq<Expr>, st: Globals, tr: Trace, j: nat): Trace
    requires j <= |args|
    decreases j
  {
    if j == 0 then tr
    else
      match Eval(c, o, args[0], st, tr)
      case Val(_, tr1, _) => TraceAt(c, o, args[1..], st, tr1, j - 1)
      case _ => tr
  }

  lemma {:induction false} RdxSpared(c: Scope, o: Env, args: seq<Expr>, ts: seq<Ty>, st: Globals, tr: Trace, ri: nat,
                                     fi: nat, w: Word)
    requires WellTyped(c, st) && CheckArgs(c, args, ts) && ri + RegularCount(ts) <= 6 && LoadedBefore(RDX, ri, fi)
    requires forall i :: 0 <= i < |args| ==> !WritesRdx(c, args[i])
    ensures ArgsLeave(c, o, args, st, tr, ri, fi, RDX, w) == w
    decreases |args|
  {
    hide WellTyped, Eval, CheckExpr, CallsOut, UsesRdx, LoadedBefore, ArgTarget, Leaves;
    if args != [] {
      var q := Eval(c, o, args[0], st, tr);
      var t := ts[0];
      TypeOf(c, args[0], t);
      LoadedTracked(RDX, ri, fi, t);
      LeavesKept(c, o, args[0], st, tr, RDX, w);
      if q.Val? {
        RdxSpared(c, o, args[1..], ts[1..], st, q.tr, if t.TDouble? then ri else ri + 1,
                  if t.TDouble? then fi + 1 else fi, w);
      }
    }
  }

  /** Loaded before the arguments, %rdx holds what the last argument that writes it left. */
  lemma {:induction false} LastRdxLeaves(c: Scope, o: Env, args: seq<Expr>, ts: seq<Ty>, st: Globals, tr: Trace,
                                         ri: nat, fi: nat, w: Word, j: nat)
    requires WellTyped(c, st) && CheckArgs(c, args, ts) && ri + RegularCount(ts) <= 6 && LoadedBefore(RDX, ri, fi)
    requires j < |args| && WritesRdx(c, args[j]) && forall i :: j < i < |args| ==> !WritesRdx(c, args[i])
    requires EvalArgs(c, o, args, st, tr).Vals?
    ensures ArgsLeave(c, o, args, st, tr, ri, fi, RDX, w) == Leaves(c, o, args[j], st, TraceAt(c, o, args, st, tr, j),
        RDX, 0)
    decreases j
  {
    hide WellTyped, Eval, CheckExpr, WritesRdx, LoadedBefore, ArgTarget, Leaves;
    var q := Eval(c, o, args[0], st, tr);
    var t := ts[0];
    TypeOf(c, args[0], t);
    LoadedTracked(RDX, ri, fi, t);
    var ri', fi' := if t.TDouble? then ri else ri + 1, if t.TDouble? then fi + 1 else fi;
    var w1 := Leaves(c, o, args[0], st, tr, RDX, w);
    if j == 0 {
      RdxWritten(c, o, args[0], st, tr, w, 0);
      RdxSpared(c, o, args[1..], ts[1..], st, q.tr, ri', fi', w1);
    } else {
      assert args[1..][j - 1] == args[j];
      LastRdxLeaves(c, o, args[1..], ts[1..], st, q.tr, ri', fi', w1, j - 1);
    }
  }

  // ---------- what argument lists leave ----------

  predicate SomeCallsOut(c: Scope, args: seq<Expr>) {
    exists i :: 0 <= i < |args| && CallsOut(c, args[i])
  }

  /** A register loaded before the arguments holds what their last call left, or its word if there is
      no call among them. */
  lemma {:induction false} ArgsLeft(c: Scope, o: Env, args: seq<Expr>, ts: seq<Ty>, st: Globals, tr: Trace, ri: nat,
                                    fi: nat, r: Reg, w: Word)
    requires WellTyped(c, st) && CheckArgs(c, args, ts) && ri + RegularCount(ts) <= 6
    requires LoadedBefore(r, ri, fi) && r != RDX && EvalArgs(c, o, args, st, tr).Vals?
    ensures var q := EvalArgs(c, o, args, st, tr);
      && ArgsLeave(c, o, args, st, tr, ri, fi, r, w) == (if SomeCallsOut(c, args) then Get(o.foreign(q.tr), r) else w)
      && (!SomeCallsOut(c, args) ==> q.tr == tr)
    decreases |args|
  {
    hide WellTyped, Eval, CheckExpr, CallsOut, UsesRdx, LoadedBefore, ArgTarget, Leaves;
    if args != [] {
      var q := Eval(c, o, args[0], st, tr);
      var t := ts[0];
      TypeOf(c, args[0], t);
      LoadedTracked(r, ri, fi, t);
      var w1 := Leaves(c, o, args[0], st, tr, r, w);
      ArgsLeft(c, o, args[1..], ts[1..], st, q.tr, if t.TDouble? then ri else ri + 1,
               if t.TDouble? then fi + 1 else fi, r, w1);
      SomeFirst(c, args);
      if CallsOut(c, args[0]) {
        LastCallLeaves(c, o, args[0], st, tr, r, w);
      } else {
        LeavesKept(c, o, args[0], st, tr, r, w);
        NoCallNoTrace(c, o, args[0], st, tr);
      }
    }
  }

  lemma SomeFirst(c: Scope, args: seq<Expr>)
    requires args != []
    ensures SomeCallsOut(c, args) <==> CallsOut(c, args[0]) || SomeCallsOut(c, args[1..])
  {
    hide CallsOut;
    if SomeCallsOut(c, args[1..]) {
      var i :| 0 <= i < |args[1..]| && CallsOut(c, args[1..][i]);
      assert CallsOut(c, args[i + 1]);
    }
    if SomeCallsOut(c, args) && !CallsOut(c, args[0]) {
      var i :| 0 <= i < |args| && CallsOut(c, args[i]);
      assert args[i] == args[1..][i - 1];
    }
  }
}
