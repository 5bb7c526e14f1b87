/** Type soundness: accepted trees evaluate to values of their static type, or trap. */
module Soundness {
  import opened Syntax
  import opened Typing
  import opened Machine
  import opened Semantics

  ghost predicate Sound(c: Scope, r: Result, t: Ty) {
    match r
    case Val(v, _, _) => HasType(c, v, t)
    case Trap(_, _, _) => true
    case Wrong => false
  }

  ghost predicate SoundArgs(c: Scope, r: ArgResult, ts: seq<Ty>) {
    match r
    case Vals(vs, _, _) => |vs| == |ts| && forall i :: 0 <= i < |vs| ==> HasType(c, vs[i], ts[i])
    case ArgTrap(_, _, _) => true
    case ArgWrong => false
  }

  lemma BinSound(c: Scope, o: Env, op: BinOp, a: Value, b: Value, tr: Trace, t: Ty)
    requires CheckBin(op, Some(t), Some(t)) == Some(t)
    requires HasType(c, a, t) && HasType(c, b, t)
    ensures Sound(c, BinMeaning(o, op, a, b, tr), t)
  {
  }

  lemma DerefSound(c: Scope, st: Globals, v: Value, tr: Trace, t: Ty)
    requires WellTyped(c, st) && HasType(c, v, TPtr(t))
    ensures Sound(c, DerefMeaning(st, v, tr), t) && Clean(DerefMeaning(st, v, tr))
  {
  }

  lemma ConvSound(c: Scope, o: Env, v: Value, tr: Trace, from: Ty, to: Ty)
    requires HasType(c, v, from) && CheckConv(Some(from), Some(to)) == Some(to)
    ensures Sound(c, ConvMeaning(o, v, to, tr), to)
  {
  }

  /** Evaluation of a well-typed expression in a well-typed store yields a value of its type,
      or one of the two traps. */
  lemma {:induction false} EvalSound(c: Scope, o: Env, e: Expr, st: Globals, tr: Trace)
    requires WellTyped(c, st) && CheckExpr(c, e).Some?
    ensures Sound(c, Eval(c, o, e, st, tr), CheckExpr(c, e).value)
    decreases e, 1
  {
    match e
    case Lit(_) =>
    case Var(_) =>
    case Ref(_) =>
    case Paren(a) => EvalSound(c, o, a, st, tr);
    case Deref(a) =>
      EvalSound(c, o, a, st, tr);
      var r := Eval(c, o, a, st, tr);
      if r.Val? {
        DerefSound(c, st, r.v, r.tr, CheckExpr(c, e).value);
      }
    case Negate(a) => EvalSound(c, o, a, st, tr);
    case Bin(op, l, r) =>
      OperandsSound(c, o, e, st, tr);
      var q := EvalOperands(c, o, e, st, tr);
      if q.Both? {
        BinSound(c, o, op, q.a, q.b, q.tr, CheckExpr(c, l).value);
      }
    case Rel(_, _, _) => OperandsSound(c, o, e, st, tr);
    case Conv(a, te) =>
      EvalSound(c, o, a, st, tr);
      var r := Eval(c, o, a, st, tr);
      if r.Val? {
        ConvSound(c, o, r.v, r.tr, CheckExpr(c, a).value, CheckExpr(c, e).value);
      }
    case Call(f, args) => ArgsSound(c, o, args, c.funcs[f].params, st, tr);
  }

  lemma {:induction false} OperandsSound(c: Scope, o: Env, e: Expr, st: Globals, tr: Trace)
    requires e.Bin? || e.Rel?
    requires WellTyped(c, st) && CheckExpr(c, e.l).Some? && CheckExpr(c, e.r).Some?
    ensures var q := EvalOperands(c, o, e, st, tr);
      !q.OperandWrong? &&
      (q.Both? ==> HasType(c, q.a, CheckExpr(c, e.l).value) && HasType(c, q.b, CheckExpr(c, e.r).value))
    decreases e, 0
  {
    EvalSound(c, o, e.l, st, tr);
    var q := Eval(c, o, e.l, st, tr);
    if q.Val? {
      EvalSound(c, o, e.r, st, q.tr);
    }
  }

  lemma {:induction false} ArgsSound(c: Scope, o: Env, args: seq<Expr>, ts: seq<Ty>, st: Globals, tr: Trace)
    requires WellTyped(c, st) && CheckArgs(c, args, ts)
    ensures SoundArgs(c, EvalArgs(c, o, args, st, tr), ts)
    decreases args, 2
  {
    if args != [] {
      EvalSound(c, o, args[0], st, tr);
      var r := Eval(c, o, args[0], st, tr);
      if r.Val? {
        ArgsSound(c, o, args[1..], ts[1..], st, r.tr);
      }
    }
  }

  lemma {:induction false} FollowSound(c: Scope, st: Globals, x: Name, k: nat)
    requires WellTyped(c, st) && x in c.vars && Strip(c.vars[x], k).Some?
    ensures Follow(st, x, k).Some?
    ensures Follow(st, x, k).value.Some? ==>
              var y := Follow(st, x, k).value.value;
              y in c.vars && Some(c.vars[y]) == Strip(c.vars[x], k)
  {
    if k > 0 {
      StripLast(c.vars[x], k);
      FollowSound(c, st, x, k - 1);
    }
  }

  lemma {:induction false} StripLast(t: Ty, k: nat)
    requires k > 0 && Strip(t, k).Some?
    ensures Strip(t, k - 1).Some? && Strip(t, k - 1).value == TPtr(Strip(t, k).value)
  {
    if k > 1 {
      StripLast(t.target, k - 1);
    }
  }

  ghost predicate SoundOutcome(c: Scope, r: Outcome) {
    match r
    case Done(s, _) => WellTyped(c, s.st)
    case Trapped(_, s, _) => WellTyped(c, s.st)
    case OutOfFuel(s, _) => WellTyped(c, s.st)
    case Stray => false
  }

  lemma {:induction false} AssignSound(c: Scope, o: Env, x: Name, k: nat, e: Expr, s: SourceState)
    requires WellTyped(c, s.st) && CheckAssign(c, x, k, e)
    ensures SoundOutcome(c, ExecAssign(c, o, x, k, e, s))
  {
    EvalSound(c, o, e, s.st, s.tr);
    FollowSound(c, s.st, x, k);
  }

  /** An accepted statement can only finish, trap on a division by zero or a null pointer, or run on,
      and whichever it does, after any amount of fuel, the globals hold values of their declared types. */
  lemma {:induction false} ExecSound(c: Scope, o: Env, t: Stmt, s: SourceState, fuel: nat)
    requires WellTyped(c, s.st) && CheckStmt(c, t)
    ensures SoundOutcome(c, Exec(c, o, t, s, fuel))
    decreases fuel, t, 0
  {
    hide Eval, EvalArgs, WellTyped, CheckExpr, ExecAssign;
    match t
    case Assignment(x, k, e) => AssignSound(c, o, x, k, e, s);
    case IfElse(e, a, b) =>
      EvalSound(c, o, e, s.st, s.tr);
      var r := Eval(c, o, e, s.st, s.tr);
      if r.Val? {
        ExecSound(c, o, a, s.(tr := r.tr), fuel);
        ExecSound(c, o, b, s.(tr := r.tr), fuel);
      }
    case IfOnly(e, a) =>
      EvalSound(c, o, e, s.st, s.tr);
      var r := Eval(c, o, e, s.st, s.tr);
      if r.Val? {
        ExecSound(c, o, a, s.(tr := r.tr), fuel);
      }
    case Loop(e, b) => LoopSound(c, o, e, b, s, fuel);
    case ForTo(x, k, from, to, b) =>
      AssignSound(c, o, x, k, from, s);
      var r := ExecAssign(c, o, x, k, from, s);
      if r.Done? {
        ForSound(c, o, x, to, b, r.s, fuel);
      }
    case Block(ss, _) => AllSound(c, o, ss, s, fuel);
    case Show(e) => EvalSound(c, o, e, s.st, s.tr);
    case CallStmt(f, args) => ArgsSound(c, o, args, c.funcs[f].params, s.st, s.tr);
  }

  lemma {:induction false} LoopSound(c: Scope, o: Env, e: Expr, b: Stmt, s: SourceState, fuel: nat)
    requires WellTyped(c, s.st) && CheckExpr(c, e) == Some(TBool) && CheckStmt(c, b)
    ensures SoundOutcome(c, Exec(c, o, Loop(e, b), s, fuel))
    decreases fuel, b, 1
  {
    hide Eval, WellTyped, CheckExpr, CheckStmt;
    EvalSound(c, o, e, s.st, s.tr);
    var r := Eval(c, o, e, s.st, s.tr);
    if fuel > 0 && r.Val? {
      ExecSound(c, o, b, s.(tr := r.tr), fuel);
      var q := Exec(c, o, b, s.(tr := r.tr), fuel);
      if q.Done? {
        LoopSound(c, o, e, b, q.s, fuel - 1);
      }
    }
  }

  lemma FlaggedSound(c: Scope, r: Outcome)
    requires SoundOutcome(c, r)
    ensures forall flag :: SoundOutcome(c, Flagged(r, flag))
  {}

  lemma BumpSound(c: Scope, x: Name, s: SourceState)
    requires WellTyped(c, s.st) && x in c.vars && c.vars[x].TInt?
    ensures x in s.st && s.st[x].VInt? && WellTyped(c, Bump(s, x).st)
  {
    assert HasType(c, s.st[x], c.vars[x]);
  }

  lemma {:induction false} ForSound(c: Scope, o: Env, x: Name, to: Expr, b: Stmt, s: SourceState, fuel: nat)
    requires WellTyped(c, s.st) && CheckStmt(c, b) && CheckExpr(c, to) == Some(TInt)
    requires x in c.vars && c.vars[x].TInt?
    ensures SoundOutcome(c, ExecFor(c, o, x, to, b, s, fuel))
    decreases fuel, b, 1
  {
    hide Eval, Exec, CheckExpr, CheckStmt, WellTyped, Flagged, Bump;
    if fuel > 0 {
      EvalSound(c, o, to, s.st, s.tr);
      var r := Eval(c, o, to, s.st, s.tr);
      if r.Val? {
        var s1 := s.(tr := r.tr);
        assert r.v.VInt?;
        BumpSound(c, x, s);
        ExecSound(c, o, b, s1, fuel);
        var q := Exec(c, o, b, s1, fuel);
        FlaggedSound(c, q);
        if q.Done? {
          BumpSound(c, x, q.s);
          ForSound(c, o, x, to, b, Bump(q.s, x), fuel - 1);
          FlaggedSound(c, ExecFor(c, o, x, to, b, Bump(q.s, x), fuel - 1));
        }
      }
    }
  }

  lemma {:induction false} AllSound(c: Scope, o: Env, ss: seq<Stmt>, s: SourceState, fuel: nat)
    requires WellTyped(c, s.st) && CheckStmts(c, ss)
    ensures SoundOutcome(c, ExecAll(c, o, ss, s, fuel))
    decreases fuel, ss, 0
  {
    if ss != [] {
      ExecSound(c, o, ss[0], s, fuel);
      var r := Exec(c, o, ss[0], s, fuel);
      if r.Done? {
        AllSound(c, o, ss[1..], r.s, fuel);
      }
    }
  }
}
