/** The fuel only bounds how far a run is followed: a run that comes to an end comes to the same end
    under any more fuel. */
module Fuel {
  import opened Words
  import opened Syntax
  import opened Typing
  import opened Machine
  import opened Semantics

  lemma FlagsKeepFuel(r: Outcome)
    ensures forall flag :: Flagged(r, flag).OutOfFuel? == r.OutOfFuel?
  {}

  lemma {:induction false} MoreFuel(c: Scope, o: Env, t: Stmt, s: SourceState, fuel: nat, more: nat)
    requires fuel <= more && !Exec(c, o, t, s, fuel).OutOfFuel?
    ensures Exec(c, o, t, s, more) == Exec(c, o, t, s, fuel)
    decreases fuel, t, 2
  {
    hide Eval, EvalArgs, KeepsArgs, ExecAssign, Flagged;
    match t
    case IfElse(e, a, b) =>
      var r := Eval(c, o, e, s.st, s.tr);
      if r.Val? && r.v.VBool? {
        var body := if r.v.b then a else b;
        FlagsKeepFuel(Exec(c, o, body, s.(tr := r.tr), fuel));
        MoreFuel(c, o, body, s.(tr := r.tr), fuel, more);
      }
    case IfOnly(e, a) =>
      var r := Eval(c, o, e, s.st, s.tr);
      if r.Val? && r.v.VBool? && r.v.b {
        FlagsKeepFuel(Exec(c, o, a, s.(tr := r.tr), fuel));
        MoreFuel(c, o, a, s.(tr := r.tr), fuel, more);
      }
    case Loop(e, b) => MoreLoopFuel(c, o, e, b, s, fuel, more);
    case ForTo(x, k, from, to, b) =>
      var r := ExecAssign(c, o, x, k, from, s);
      if r.Done? {
        FlagsKeepFuel(ExecFor(c, o, x, to, b, r.s, fuel));
        MoreRoundFuel(c, o, x, to, b, r.s, fuel, more);
      }
    case Block(ss, _) => MoreFuelAll(c, o, ss, s, fuel, more);
    case _ =>
  }

  lemma {:induction false} MoreLoopFuel(c: Scope, o: Env, e: Expr, b: Stmt, s: SourceState, fuel: nat, more: nat)
    requires fuel <= more && !Exec(c, o, Loop(e, b), s, fuel).OutOfFuel?
    ensures Exec(c, o, Loop(e, b), s, more) == Exec(c, o, Loop(e, b), s, fuel)
    decreases fuel, b, 3
  {
    hide Eval, Flagged;
    var r := Eval(c, o, e, s.st, s.tr);
    if r.Val? && r.v.VBool? && r.v.b {
      var s1 := s.(tr := r.tr);
      var q := Exec(c, o, b, s1, fuel);
      FlagsKeepFuel(q);
      MoreFuel(c, o, b, s1, fuel, more);
      if q.Done? {
        FlagsKeepFuel(Exec(c, o, Loop(e, b), q.s, fuel - 1));
        MoreLoopFuel(c, o, e, b, q.s, fuel - 1, more - 1);
      }
    }
  }

  /** The test of a FOR lets the body run. */
  predicate GoesOn(c: Scope, o: Env, x: Name, to: Expr, s: SourceState) {
    var r := Eval(c, o, to, s.st, s.tr);
    r.Val? && r.v.VInt? && x in s.st && s.st[x].VInt? && s.st[x].w <= r.v.w
  }

  lemma RoundStops(c: Scope, o: Env, x: Name, to: Expr, b: Stmt, s: SourceState, fuel: nat, more: nat)
    requires fuel > 0 && more > 0 && !GoesOn(c, o, x, to, s)
    ensures ExecFor(c, o, x, to, b, s, more) == ExecFor(c, o, x, to, b, s, fuel)
  {
    hide Eval, Exec, Flagged, Bump;
  }

  /** The flag of one round. */
  function RoundFlag(c: Scope, o: Env, x: Name, to: Expr, s: SourceState): bool
    requires GoesOn(c, o, x, to, s)
  {
    var r := Eval(c, o, to, s.st, s.tr);
    r.ok && (r.v.w < HALF) == (s.st[x].w < HALF)
  }

  lemma RoundUnfolds(c: Scope, o: Env, x: Name, to: Expr, b: Stmt, s: SourceState, fuel: nat)
    requires fuel > 0 && GoesOn(c, o, x, to, s)
    ensures var s1 := s.(tr := Eval(c, o, to, s.st, s.tr).tr);
      var q := Exec(c, o, b, s1, fuel);
      var flag := RoundFlag(c, o, x, to, s);
      && (!q.Done? ==> ExecFor(c, o, x, to, b, s, fuel) == Flagged(q, flag))
      && (q.Done? && !(x in q.s.st && q.s.st[x].VInt?) ==> ExecFor(c, o, x, to, b, s, fuel) == Stray)
      && (q.Done? && x in q.s.st && q.s.st[x].VInt? ==>
            ExecFor(c, o, x, to, b, s, fuel) == Flagged(ExecFor(c, o, x, to, b, Bump(q.s, x), fuel - 1), flag && q.ok))
  {
    hide Eval, Exec, Flagged, Bump;
    var r := Eval(c, o, to, s.st, s.tr);
    var flag := RoundFlag(c, o, x, to, s);
    var q := Exec(c, o, b, s.(tr := r.tr), fuel);
    if !q.Done? {
      assert ExecFor(c, o, x, to, b, s, fuel) == Flagged(q, flag);
    } else if x in q.s.st && q.s.st[x].VInt? {
      assert ExecFor(c, o, x, to, b, s, fuel) == Flagged(ExecFor(c, o, x, to, b, Bump(q.s, x), fuel - 1), flag && q.ok);
    }
  }

  lemma {:induction false} MoreRoundFuel(c: Scope, o: Env, x: Name, to: Expr, b: Stmt, s: SourceState, fuel: nat,
                                         more: nat)
    requires fuel <= more && !ExecFor(c, o, x, to, b, s, fuel).OutOfFuel?
    ensures ExecFor(c, o, x, to, b, s, more) == ExecFor(c, o, x, to, b, s, fuel)
    decreases fuel, b, 3
  {
    NoRounds(c, o, x, to, b, s);
    hide Eval, Flagged, Bump, ExecFor, Exec, RoundFlag;
    if GoesOn(c, o, x, to, s) {
      RoundUnfolds(c, o, x, to, b, s, fuel);
      RoundUnfolds(c, o, x, to, b, s, more);
      var s1 := s.(tr := Eval(c, o, to, s.st, s.tr).tr);
      var q := Exec(c, o, b, s1, fuel);
      FlagsKeepFuel(q);
      MoreFuel(c, o, b, s1, fuel, more);
      if q.Done? && x in q.s.st && q.s.st[x].VInt? {
        FlagsKeepFuel(ExecFor(c, o, x, to, b, Bump(q.s, x), fuel - 1));
        MoreRoundFuel(c, o, x, to, b, Bump(q.s, x), fuel - 1, more - 1);
      }
    } else {
      RoundStops(c, o, x, to, b, s, fuel, more);
    }
  }

  lemma NoRounds(c: Scope, o: Env, x: Name, to: Expr, b: Stmt, s: SourceState)
    ensures ExecFor(c, o, x, to, b, s, 0).OutOfFuel?
  {}

  lemma {:induction false} MoreFuelAll(c: Scope, o: Env, ss: seq<Stmt>, s: SourceState, fuel: nat, more: nat)
    requires fuel <= more && !ExecAll(c, o, ss, s, fuel).OutOfFuel?
    ensures ExecAll(c, o, ss, s, more) == ExecAll(c, o, ss, s, fuel)
    decreases fuel, ss, 1
  {
    hide Flagged;
    if ss != [] {
      var q := Exec(c, o, ss[0], s, fuel);
      MoreFuel(c, o, ss[0], s, fuel, more);
      if q.Done? {
        FlagsKeepFuel(ExecAll(c, o, ss[1..], q.s, fuel));
        MoreFuelAll(c, o, ss[1..], q.s, fuel, more);
      }
    }
  }
}
