/** A fragment that can be read off the text, whose runs never meet a departure: for its programs
    the main theorem holds without any condition on the run. */
module SoundFragment {
  import opened Words
  import opened Syntax
  import opened Typing
  import opened Machine
  import opened Emission
  import opened Grammar
  import opened Semantics
  import opened Soundness
  import opened Simulation
  import opened StmtSim
  import opened Preservation
  import opened Declarations
  import opened EndToEnd
  import opened Fuel
  import opened ForCounting

  /** Conversions that are the identity on words and on meanings. */
  predicate FaithfulConv(from: Ty, to: Ty) {
    from == to || (from.TInt? && to.TChar?)
  }

  /** The value of an INTEGER literal, parenthesised or not. */
  function Limit(e: Expr): Option<Word>
    decreases e
  {
    match e
    case Lit(IntLit(_, w)) => Some(w)
    case Paren(a) => Limit(a)
    case _ => None
  }

  /** A literal that keeps its value and is no negative number. */
  predicate SmallLimit(e: Expr) {
    Limit(e).Some? && LiteralFits(Limit(e).value) && Limit(e).value < HALF
  }

  lemma {:induction false} LimitEvals(c: Scope, o: Env, e: Expr, st: Globals, tr: Trace)
    requires SmallLimit(e)
    ensures Eval(c, o, e, st, tr) == Val(VInt(Limit(e).value), tr, true)
    decreases e
  {
    if e.Paren? {
      LimitEvals(c, o, e.e, st, tr);
    }
  }

  predicate InFragment(c: Scope, e: Expr)
    decreases e
  {
    match e
    case Lit(t) => IsLiteral(t) && LiteralFits(LiteralWord(t))
    case Var(_) => true
    case Ref(_) => true
    case Deref(a) => InFragment(c, a)
    case Negate(a) => InFragment(c, a)
    case Paren(a) => InFragment(c, a)
    case Bin(op, l, r) =>
      op != OpAnd && !(op == OpMod && TyOf(c, l).TInt?) && InFragment(c, l) && InFragment(c, r)
    case Rel(_, l, r) => InFragment(c, l) && InFragment(c, r)
    case Conv(a, te) =>
      var to := Resolve(c.aliases, te);
      && to.Some? && InFragment(c, a)
      && (FaithfulConv(TyOf(c, a), to.value) || (to.value.TDouble? && SmallLimit(a)))
    case Call(_, args) => KeepsArgs(c, args, 0, 0) && forall i :: 0 <= i < |args| ==> InFragment(c, args[i])
  }

  /** A FOR is admitted between literals that the signed test can tell apart, if its body cannot change
      the loop variable. */
  predicate InFragmentStmt(c: Scope, s: Stmt)
    decreases s
  {
    match s
    case Assignment(_, _, e) => InFragment(c, e)
    case IfElse(e, t, f) => InFragment(c, e) && InFragmentStmt(c, t) && InFragmentStmt(c, f)
    case IfOnly(e, t) => InFragment(c, e) && InFragmentStmt(c, t)
    case Loop(e, b) => InFragment(c, e) && InFragmentStmt(c, b)
    case ForTo(x, k, from, to, b) =>
      && k == 0 && SmallLimit(from) && SmallLimit(to) && Limit(to).value + 1 < HALF
      && Spares(c, b, {x}) && InFragmentStmt(c, b)
    case Block(ss, _) => forall i :: 0 <= i < |ss| ==> InFragmentStmt(c, ss[i])
    case Show(e) => InFragment(c, e)
    case CallStmt(_, args) => KeepsArgs(c, args, 0, 0) && forall i :: 0 <= i < |args| ==> InFragment(c, args[i])
  }

  /** No DOUBLE is compared with a NaN. */
  ghost predicate Ordered(o: Env) {
    forall a: Word, b: Word :: o.fl.compare(a, b) != Unordered
  }

  lemma BinClean(c: Scope, o: Env, op: BinOp, a: Value, b: Value, tr: Trace, t: Ty)
    requires CheckBin(op, Some(t), Some(t)).Some? && HasType(c, a, t) && HasType(c, b, t)
    requires op != OpAnd && !(op == OpMod && t.TInt?)
    ensures Clean(BinMeaning(o, op, a, b, tr))
  {}

  lemma RelClean(c: Scope, o: Env, op: RelOp, a: Value, b: Value, tr: Trace, t: Ty)
    requires CheckRel(Some(t), Some(t)).Some? && HasType(c, a, t) && HasType(c, b, t) && Ordered(o)
    ensures Clean(RelMeaning(o, op, a, b, tr))
  {}

  lemma ConvClean(c: Scope, o: Env, v: Value, from: Ty, to: Ty, tr: Trace)
    requires CheckConv(Some(from), Some(to)).Some? && HasType(c, v, from)
    requires FaithfulConv(from, to) || (to.TDouble? && v.VInt? && v.w < HALF)
    ensures Clean(ConvMeaning(o, v, to, tr))
  {}

  /** Every evaluation in the fragment gives a clean value or a clean trap. */
  lemma {:induction false} EvalClean(c: Scope, o: Env, e: Expr, st: Globals, tr: Trace)
    requires WellTyped(c, st) && CheckExpr(c, e).Some? && InFragment(c, e) && Ordered(o)
    ensures Clean(Eval(c, o, e, st, tr))
    decreases e, 2
  {
    hide WellTyped, Ordered, BinMeaning, RelMeaning, ConvMeaning, DerefMeaning, FaithfulConv;
    EvalSound(c, o, e, st, tr);
    match e
    case Deref(a) =>
      EvalSound(c, o, a, st, tr);
      EvalClean(c, o, a, st, tr);
      var r := Eval(c, o, a, st, tr);
      if r.Val? {
        DerefSound(c, st, r.v, r.tr, CheckExpr(c, a).value.target);
      }
    case Negate(a) => EvalClean(c, o, a, st, tr);
    case Paren(a) => EvalClean(c, o, a, st, tr);
    case Bin(op, l, r) => BinCaseClean(c, o, e, st, tr);
    case Rel(op, l, r) => RelCaseClean(c, o, e, st, tr);
    case Conv(a, te) =>
      EvalSound(c, o, a, st, tr);
      EvalClean(c, o, a, st, tr);
      var r := Eval(c, o, a, st, tr);
      if r.Val? {
        if SmallLimit(a) {
          LimitEvals(c, o, a, st, tr);
        }
        ConvClean(c, o, r.v, CheckExpr(c, a).value, Resolve(c.aliases, te).value, r.tr);
      }
    case Call(f, args) => ArgsClean(c, o, args, c.funcs[f].params, st, tr);
    case _ =>
  }

  lemma {:induction false} OperandsClean(c: Scope, o: Env, e: Expr, st: Globals, tr: Trace)
    requires e.Bin? || e.Rel?
    requires WellTyped(c, st) && CheckExpr(c, e.l).Some? && CheckExpr(c, e.r).Some? && Ordered(o)
    requires InFragment(c, e.l) && InFragment(c, e.r)
    ensures match EvalOperands(c, o, e, st, tr)
      case Both(a, b, _, ok) => ok && HasType(c, a, CheckExpr(c, e.l).value) && HasType(c, b, CheckExpr(c, e.r).value)
      case OperandTrap(_, _, ok) => ok
      case OperandWrong => false
    decreases e, 0
  {
    hide WellTyped, Ordered, HasType;
    EvalSound(c, o, e.l, st, tr);
    EvalClean(c, o, e.l, st, tr);
    var r := Eval(c, o, e.l, st, tr);
    if r.Val? {
      EvalSound(c, o, e.r, st, r.tr);
      EvalClean(c, o, e.r, st, r.tr);
    }
  }

  lemma {:induction false} BinCaseClean(c: Scope, o: Env, e: Expr, st: Globals, tr: Trace)
    requires e.Bin? && WellTyped(c, st) && CheckExpr(c, e).Some? && InFragment(c, e) && Ordered(o)
    ensures Clean(Eval(c, o, e, st, tr))
    decreases e, 1
  {
    hide WellTyped, Ordered, HasType, BinMeaning;
    OperandsClean(c, o, e, st, tr);
    var q := EvalOperands(c, o, e, st, tr);
    if q.Both? {
      BinClean(c, o, e.op, q.a, q.b, q.tr, CheckExpr(c, e.l).value);
    }
  }

  lemma {:induction false} RelCaseClean(c: Scope, o: Env, e: Expr, st: Globals, tr: Trace)
    requires e.Rel? && WellTyped(c, st) && CheckExpr(c, e).Some? && InFragment(c, e) && Ordered(o)
    ensures Clean(Eval(c, o, e, st, tr))
    decreases e, 1
  {
    hide WellTyped, Ordered, HasType, RelMeaning;
    OperandsClean(c, o, e, st, tr);
    var q := EvalOperands(c, o, e, st, tr);
    if q.Both? {
      RelClean(c, o, e.rel, q.a, q.b, q.tr, CheckExpr(c, e.l).value);
    }
  }

  lemma {:induction false} ArgsClean(c: Scope, o: Env, args: seq<Expr>, ts: seq<Ty>, st: Globals, tr: Trace)
    requires WellTyped(c, st) && CheckArgs(c, args, ts) && Ordered(o)
    requires forall i :: 0 <= i < |args| ==> InFragment(c, args[i])
    ensures match EvalArgs(c, o, args, st, tr)
      case Vals(_, _, ok) => ok
      case ArgTrap(_, _, ok) => ok
      case ArgWrong => false
    decreases args, 0
  {
    hide WellTyped, Ordered, InFragment;
    if args != [] {
      EvalClean(c, o, args[0], st, tr);
      var r := Eval(c, o, args[0], st, tr);
      if r.Val? {
        ArgsClean(c, o, args[1..], ts[1..], st, r.tr);
      }
    }
  }

  /** No run of a statement of the fragment meets a departure. */
  lemma {:induction false} ExecClean(c: Scope, o: Env, t: Stmt, s: SourceState, fuel: nat)
    requires WellTyped(c, s.st) && CheckStmt(c, t) && InFragmentStmt(c, t) && Ordered(o)
    ensures CleanOutcome(Exec(c, o, t, s, fuel))
    decreases fuel, t, 0
  {
    hide WellTyped, Ordered, Eval, EvalArgs, CheckExpr, InFragment, CheckAssign, ExecAssign, KeepsArgs, CheckArgs,
      Callable, ExecFor, Spares, SmallLimit;
    ExecSound(c, o, t, s, fuel);
    match t
    case Assignment(x, k, e) => AssignClean(c, o, x, k, e, s);
    case IfElse(e, a, b) =>
      EvalClean(c, o, e, s.st, s.tr);
      var r := Eval(c, o, e, s.st, s.tr);
      if r.Val? {
        ExecClean(c, o, a, s.(tr := r.tr), fuel);
        ExecClean(c, o, b, s.(tr := r.tr), fuel);
      }
    case IfOnly(e, a) =>
      EvalClean(c, o, e, s.st, s.tr);
      var r := Eval(c, o, e, s.st, s.tr);
      if r.Val? {
        ExecClean(c, o, a, s.(tr := r.tr), fuel);
      }
    case Loop(e, b) => LoopClean(c, o, e, b, s, fuel);
    case ForTo(_, _, _, _, _) => ForClean(c, o, t, s, fuel);
    case Block(ss, _) => AllClean(c, o, ss, s, fuel);
    case Show(e) => EvalClean(c, o, e, s.st, s.tr);
    case CallStmt(f, args) => ArgsClean(c, o, args, c.funcs[f].params, s.st, s.tr);
  }

  lemma {:induction false} ForClean(c: Scope, o: Env, t: Stmt, s: SourceState, fuel: nat)
    requires t.ForTo? && WellTyped(c, s.st) && CheckStmt(c, t) && InFragmentStmt(c, t) && Ordered(o)
    ensures CleanOutcome(Exec(c, o, t, s, fuel))
    decreases fuel, t.body, 3
  {
    hide Ordered, Eval, CheckExpr, InFragment, InFragmentStmt, Spares, ExecFor, HasType;
    ForFragment(c, t);
    var lo := Limit(t.from).value;
    LimitEvals(c, o, t.from, s.st, s.tr);
    StartTyped(c, t, s.st, lo);
    var start := s.(st := s.st[t.x := VInt(lo)], tr := s.tr);
    ForStarts(c, o, t.x, t.from, t.to, t.body, s, fuel, lo, s.tr, true);
    RoundsClean(c, o, t.x, t.to, t.body, start, fuel, lo);
    FlaggedClean(ExecFor(c, o, t.x, t.to, t.body, start, fuel));
  }

  lemma FlaggedClean(r: Outcome)
    ensures CleanOutcome(Flagged(r, true)) == CleanOutcome(r)
  {}

  lemma ForFragment(c: Scope, t: Stmt)
    requires t.ForTo? && CheckStmt(c, t) && InFragmentStmt(c, t)
    ensures SmallLimit(t.from) && SmallLimit(t.to) && Limit(t.to).value + 1 < HALF && t.carets == 0
    ensures Limit(t.from).value < HALF && t.x in c.vars && c.vars[t.x].TInt?
    ensures Spares(c, t.body, {t.x}) && InFragmentStmt(c, t.body) && CheckStmt(c, t.body)
    ensures CheckExpr(c, t.to) == Some(TInt)
  {
    hide CheckExpr, Spares;
  }

  lemma StartTyped(c: Scope, t: Stmt, st: Globals, lo: Word)
    requires t.ForTo? && t.x in c.vars && c.vars[t.x].TInt? && WellTyped(c, st)
    ensures WellTyped(c, st[t.x := VInt(lo)]) && t.x in st
  {}

  /** The rounds of a FOR that stays below 2^63. */
  lemma {:induction false} RoundsClean(c: Scope, o: Env, x: Name, to: Expr, b: Stmt, s: SourceState, fuel: nat, v: Word)
    requires WellTyped(c, s.st) && CheckStmt(c, b) && InFragmentStmt(c, b) && Ordered(o)
    requires Spares(c, b, {x}) && SmallLimit(to) && Limit(to).value + 1 < HALF
    requires x in c.vars && c.vars[x].TInt? && x in s.st && s.st[x] == VInt(v) && v < HALF
    ensures CleanOutcome(ExecFor(c, o, x, to, b, s, fuel))
    decreases fuel, b, 2
  {
    hide Ordered, WellTyped, Eval, Exec, ExecFor, Flagged, CheckStmt, InFragmentStmt, Spares, Bump;
    var hi := Limit(to).value;
    LimitEvals(c, o, to, s.st, s.tr);
    SameTrace(s);
    if fuel == 0 {
      OutAtOnce(c, o, x, to, b, s);
    } else if hi < v {
      ForExits(c, o, x, to, b, s, fuel, v, hi);
    } else {
      ExecClean(c, o, b, s, fuel);
      ExecSound(c, o, b, s, fuel);
      SparedStays(c, o, b, s, fuel, {x});
      var q := Exec(c, o, b, s, fuel);
      SmallRound(c, o, x, to, b, s, fuel, v);
      if q.Done? {
        BumpSound(c, x, q.s);
        BumpValue(q.s, x, v);
        RoundsClean(c, o, x, to, b, Bump(q.s, x), fuel - 1, v + 1);
        FlaggedClean(ExecFor(c, o, x, to, b, Bump(q.s, x), fuel - 1));
      } else {
        FlaggedClean(q);
      }
    }
  }

  lemma SameTrace(s: SourceState)
    ensures s.(tr := s.tr) == s
  {}

  lemma OutAtOnce(c: Scope, o: Env, x: Name, to: Expr, b: Stmt, s: SourceState)
    ensures ExecFor(c, o, x, to, b, s, 0) == OutOfFuel(s, true)
  {}

  lemma SmallRound(c: Scope, o: Env, x: Name, to: Expr, b: Stmt, s: SourceState, fuel: nat, v: Word)
    requires SmallLimit(to) && v <= Limit(to).value && x in s.st && s.st[x] == VInt(v) && fuel > 0
    ensures var q := Exec(c, o, b, s, fuel);
      && (!q.Done? ==> ExecFor(c, o, x, to, b, s, fuel) == Flagged(q, true))
      && (q.Done? && q.ok && x in q.s.st && q.s.st[x].VInt? ==>
            ExecFor(c, o, x, to, b, s, fuel) == Flagged(ExecFor(c, o, x, to, b, Bump(q.s, x), fuel - 1), true))
  {
    hide Eval, Exec, Flagged, Bump, ExecFor;
    LimitEvals(c, o, to, s.st, s.tr);
    SameTrace(s);
    SmallGoesOn(c, o, x, to, s, v);
    RoundUnfolds(c, o, x, to, b, s, fuel);
  }

  lemma SmallGoesOn(c: Scope, o: Env, x: Name, to: Expr, s: SourceState, v: Word)
    requires SmallLimit(to) && v <= Limit(to).value && x in s.st && s.st[x] == VInt(v)
    ensures GoesOn(c, o, x, to, s) && RoundFlag(c, o, x, to, s)
  {
    hide Eval;
    LimitEvals(c, o, to, s.st, s.tr);
  }

  lemma AssignClean(c: Scope, o: Env, x: Name, k: nat, e: Expr, s: SourceState)
    requires WellTyped(c, s.st) && CheckAssign(c, x, k, e) && InFragment(c, e) && Ordered(o)
    ensures CleanOutcome(ExecAssign(c, o, x, k, e, s))
  {
    hide Eval, CheckExpr, InFragment, Strip, Follow, WellTyped, Ordered;
    AssignSound(c, o, x, k, e, s);
    EvalClean(c, o, e, s.st, s.tr);
  }

  lemma {:induction false} LoopClean(c: Scope, o: Env, e: Expr, b: Stmt, s: SourceState, fuel: nat)
    requires WellTyped(c, s.st) && CheckExpr(c, e) == Some(TBool) && CheckStmt(c, b) && Ordered(o)
    requires InFragment(c, e) && InFragmentStmt(c, b)
    ensures CleanOutcome(Exec(c, o, Loop(e, b), s, fuel))
    decreases fuel, b, 1
  {
    hide WellTyped, Ordered, Eval, CheckExpr, CheckStmt, InFragment, InFragmentStmt;
    EvalSound(c, o, e, s.st, s.tr);
    EvalClean(c, o, e, s.st, s.tr);
    var r := Eval(c, o, e, s.st, s.tr);
    if fuel > 0 && r.Val? {
      ExecClean(c, o, b, s.(tr := r.tr), fuel);
      ExecSound(c, o, b, s.(tr := r.tr), fuel);
      var q := Exec(c, o, b, s.(tr := r.tr), fuel);
      if q.Done? {
        LoopClean(c, o, e, b, q.s, fuel - 1);
      }
    }
  }

  lemma {:induction false} AllClean(c: Scope, o: Env, ss: seq<Stmt>, s: SourceState, fuel: nat)
    requires WellTyped(c, s.st) && CheckStmts(c, ss) && Ordered(o)
    requires forall i :: 0 <= i < |ss| ==> InFragmentStmt(c, ss[i])
    ensures CleanOutcome(ExecAll(c, o, ss, s, fuel))
    decreases fuel, ss, 0
  {
    hide WellTyped, Ordered, InFragmentStmt;
    if ss != [] {
      ExecClean(c, o, ss[0], s, fuel);
      ExecSound(c, o, ss[0], s, fuel);
      var q := Exec(c, o, ss[0], s, fuel);
      if q.Done? {
        AllClean(c, o, ss[1..], q.s, fuel);
      }
    }
  }

  /** Every accepted program of the fragment: whatever its source run does, the machine does. */
  lemma {:induction false} FragmentPreserved(files: Files, ts: seq<Token>, o: Env, m: State, ret: Word, caller: Stack,
                                             fuel: nat)
    requires ParseProgram(files, ts, NOTHING).Some?
    requires Entry(ParseProgram(files, ts, NOTHING).value.scope, o, m, ret, caller) && Ordered(o)
    requires var p := ParseProgram(files, ts, NOTHING).value; InFragmentStmt(p.scope, p.body)
    ensures var p := ParseProgram(files, ts, NOTHING).value;
      var P := MainCode(p.scope, p.body);
      match Exec(p.scope, o, p.body, Launch(p.scope), fuel)
      case Done(s, _) =>
        exists n :: var m' := Run(P, o, m, n);
          && m'.status == Returned(ret) && m'.stk == caller && m'.rsp == m.rsp + 8 && m'.rbp == m.rsp
          && m'.trace == s.tr && Represents(p.scope, o, s.st, m'.mem)
      case Trapped(k, s, _) => exists n :: Traps(P, p.scope, o, s, Run(P, o, m, n), k)
      case OutOfFuel(s, _) => exists n :: n >= fuel && GoesOnFrom(p.scope, o, s, Run(P, o, m, n))
      case Stray => false
  {
    hide Run, Exec, MainCode, Entry, CheckStmt, DeclareBlock, ParseBlock, Represents, WellTyped, InFragmentStmt,
      Traps, GoesOnFrom;
    var p := ParseProgram(files, ts, NOTHING).value;
    InitialTyped(p.scope);
    ExecClean(p.scope, o, p.body, Launch(p.scope), fuel);
    CompilerCorrect(files, ts, o, m, ret, caller, fuel);
  }
}
