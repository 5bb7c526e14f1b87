/** How often the body of a FOR runs. */
module ForCounting {
  import opened Words
  import opened Syntax
  import opened Typing
  import opened Machine
  import opened Semantics
  import opened Soundness
  import opened Fuel

  /** An expression over the given variables that neither follows pointers nor calls out. */
  predicate ReadsOnly(c: Scope, e: Expr, ys: set<Name>)
    decreases e
  {
    match e
    case Lit(_) => true
    case Var(y) => y in ys
    case Ref(_) => true
    case Deref(_) => false
    case Negate(a) => ReadsOnly(c, a, ys)
    case Paren(a) => ReadsOnly(c, a, ys)
    case Conv(a, _) => ReadsOnly(c, a, ys)
    case Bin(op, l, r) => !(op == OpMod && TyOf(c, l).TDouble?) && ReadsOnly(c, l, ys) && ReadsOnly(c, r, ys)
    case Rel(_, l, r) => ReadsOnly(c, l, ys) && ReadsOnly(c, r, ys)
    case Call(_, _) => false
  }

  /** No assignment or FOR in the statement can change one of the variables. A store through a
      pointer can only reach a variable of exactly the type it stores. */
  predicate Spares(c: Scope, s: Stmt, ys: set<Name>)
    decreases s
  {
    match s
    case Assignment(x, k, _) => SparesStore(c, x, k, ys)
    case IfElse(_, t, f) => Spares(c, t, ys) && Spares(c, f, ys)
    case IfOnly(_, t) => Spares(c, t, ys)
    case Loop(_, b) => Spares(c, b, ys)
    case ForTo(x, k, _, _, b) => SparesStore(c, x, k, ys) && x !in ys && Spares(c, b, ys)
    case Block(ss, _) => forall i :: 0 <= i < |ss| ==> Spares(c, ss[i], ys)
    case _ => true
  }

  predicate SparesStore(c: Scope, x: Name, k: nat, ys: set<Name>) {
    if k == 0 then x !in ys
    else x in c.vars && forall y :: y in ys ==> y in c.vars && Strip(c.vars[x], k) != Some(c.vars[y])
  }

  predicate Agree(a: Globals, b: Globals, ys: set<Name>) {
    forall y :: y in ys ==> y in a && y in b && a[y] == b[y]
  }

  /** The same result, each after its own trace, to which nothing is added. */
  predicate SameResult(p: Result, q: Result, tr: Trace, tr': Trace) {
    match p
    case Val(v, t, ok) => t == tr && q == Val(v, tr', ok)
    case Trap(k, t, ok) => t == tr && q == Trap(k, tr', ok)
    case Wrong => q == Wrong
  }

  /** An expression only depends on what it reads. */
  lemma {:induction false} EvalAgrees(c: Scope, o: Env, e: Expr, a: Globals, b: Globals, tr: Trace, tr': Trace,
                                      ys: set<Name>)
    requires ReadsOnly(c, e, ys) && Agree(a, b, ys) && WellTyped(c, a) && WellTyped(c, b) && CheckExpr(c, e).Some?
    ensures SameResult(Eval(c, o, e, a, tr), Eval(c, o, e, b, tr'), tr, tr')
    decreases e, 1
  {
    hide WellTyped, BinMeaning, RelMeaning, ConvMeaning, Sound, CheckBin, CheckRel, CheckConv;
    match e
    case Negate(x) => EvalAgrees(c, o, x, a, b, tr, tr', ys);
    case Paren(x) => EvalAgrees(c, o, x, a, b, tr, tr', ys);
    case Conv(x, te) => ConvAgrees(c, o, x, te, a, b, tr, tr', ys);
    case Bin(op, l, r) =>
      BinChecked(c, op, l, r);
      EvalAgrees(c, o, l, a, b, tr, tr', ys);
      EvalAgrees(c, o, r, a, b, tr, tr', ys);
      EvalSound(c, o, l, a, tr);
      PlainMeaning(c, o, op, l, Eval(c, o, l, a, tr), Eval(c, o, r, a, tr), tr, tr');
    case Rel(op, l, r) =>
      RelChecked(c, l, r);
      EvalAgrees(c, o, l, a, b, tr, tr', ys);
      EvalAgrees(c, o, r, a, b, tr, tr', ys);
      CompareMeaning(o, op, Eval(c, o, l, a, tr), Eval(c, o, r, a, tr), tr, tr');
    case _ =>
  }

  lemma {:induction false} ConvAgrees(c: Scope, o: Env, x: Expr, te: TypeExpr, a: Globals, b: Globals, tr: Trace,
                                      tr': Trace, ys: set<Name>)
    requires ReadsOnly(c, x, ys) && Agree(a, b, ys) && WellTyped(c, a) && WellTyped(c, b)
    requires CheckExpr(c, Conv(x, te)).Some?
    ensures SameResult(Eval(c, o, Conv(x, te), a, tr), Eval(c, o, Conv(x, te), b, tr'), tr, tr')
    decreases x, 2
  {
    hide WellTyped, ReadsOnly, Agree, ConvMeaning, CheckConv;
    ConvChecked(c, x, te);
    EvalAgrees(c, o, x, a, b, tr, tr', ys);
    var r, to := Eval(c, o, x, a, tr), Resolve(c.aliases, te);
    if r.Val? && to.Some? {
      ConvertedSame(o, r.v, to.value, tr, tr');
    }
  }

  lemma ConvChecked(c: Scope, e: Expr, te: TypeExpr)
    ensures CheckExpr(c, Conv(e, te)).Some? ==> CheckExpr(c, e).Some?
  {}

  lemma ConvertedSame(o: Env, v: Value, to: Ty, tr: Trace, tr': Trace)
    ensures SameResult(ConvMeaning(o, v, to, tr), ConvMeaning(o, v, to, tr'), tr, tr')
  {}

  lemma BinChecked(c: Scope, op: BinOp, l: Expr, r: Expr)
    ensures CheckExpr(c, Bin(op, l, r)).Some? ==> CheckExpr(c, l).Some? && CheckExpr(c, r).Some?
  {}

  lemma RelChecked(c: Scope, l: Expr, r: Expr)
    ensures CheckRel(CheckExpr(c, l), CheckExpr(c, r)).Some? ==> CheckExpr(c, l).Some? && CheckExpr(c, r).Some?
  {}

  lemma CompareMeaning(o: Env, op: RelOp, p: Result, q: Result, tr: Trace, tr': Trace)
    ensures p.Val? && q.Val? ==> SameResult(RelMeaning(o, op, p.v, q.v, tr), RelMeaning(o, op, p.v, q.v, tr'), tr, tr')
  {}

  /** An operator other than the DOUBLE `%` adds nothing to the trace. */
  lemma PlainMeaning(c: Scope, o: Env, op: BinOp, l: Expr, p: Result, q: Result, tr: Trace, tr': Trace)
    requires CheckExpr(c, l).Some? && Sound(c, p, CheckExpr(c, l).value) && !(op == OpMod && TyOf(c, l).TDouble?)
    ensures p.Val? && q.Val? ==> SameResult(BinMeaning(o, op, p.v, q.v, tr), BinMeaning(o, op, p.v, q.v, tr'), tr, tr')
  {}

  /** What a statement spares it leaves alone. */
  lemma {:induction false} SparedStays(c: Scope, o: Env, s: Stmt, s0: SourceState, fuel: nat, ys: set<Name>)
    requires Spares(c, s, ys) && CheckStmt(c, s) && WellTyped(c, s0.st) && forall y :: y in ys ==> y in c.vars
    ensures var r := Exec(c, o, s, s0, fuel); r.Done? ==> WellTyped(c, r.s.st) && Agree(s0.st, r.s.st, ys)
    decreases fuel, s, 0
  {
    ExecSound(c, o, s, s0, fuel);
    hide WellTyped, Eval, CheckExpr, SparesStore, CheckAssign, Agree, ExecAssign;
    SelfAgrees(c, s0.st, ys);
    match s
    case Assignment(x, k, e) => SparedStore(c, o, x, k, e, s0, ys);
    case IfElse(e, t, f) =>
      var r := Eval(c, o, e, s0.st, s0.tr);
      if r.Val? {
        SparedStays(c, o, t, s0.(tr := r.tr), fuel, ys);
        SparedStays(c, o, f, s0.(tr := r.tr), fuel, ys);
      }
    case IfOnly(e, t) =>
      var r := Eval(c, o, e, s0.st, s0.tr);
      if r.Val? {
        SparedStays(c, o, t, s0.(tr := r.tr), fuel, ys);
      }
    case Loop(e, b) => SparedLoop(c, o, e, b, s0, fuel, ys);
    case ForTo(x, k, from, to, b) => SparedFor(c, o, s, s0, fuel, ys);
    case Block(ss, _) => SparedAll(c, o, ss, s0, fuel, ys);
    case Show(e) =>
    case CallStmt(f, args) =>
  }

  lemma {:induction false} SparedLoop(c: Scope, o: Env, e: Expr, b: Stmt, s0: SourceState, fuel: nat, ys: set<Name>)
    requires Spares(c, b, ys) && CheckStmt(c, Loop(e, b)) && WellTyped(c, s0.st) && forall y :: y in ys ==> y in c.vars
    ensures var r := Exec(c, o, Loop(e, b), s0, fuel); r.Done? ==> WellTyped(c, r.s.st) && Agree(s0.st, r.s.st, ys)
    decreases fuel, b, 2
  {
    hide WellTyped, Eval, CheckExpr, Agree, Spares;
    SelfAgrees(c, s0.st, ys);
    var r := Eval(c, o, e, s0.st, s0.tr);
    if fuel > 0 && r.Val? {
      SparedStays(c, o, b, s0.(tr := r.tr), fuel, ys);
      var q := Exec(c, o, b, s0.(tr := r.tr), fuel);
      if q.Done? {
        SparedLoop(c, o, e, b, q.s, fuel - 1, ys);
        var z := Exec(c, o, Loop(e, b), q.s, fuel - 1);
        if z.Done? {
          AgreeOn(s0.st, q.s.st, z.s.st, ys);
        }
      }
    }
  }

  lemma {:induction false} SparedFor(c: Scope, o: Env, s: Stmt, s0: SourceState, fuel: nat, ys: set<Name>)
    requires s.ForTo? && Spares(c, s, ys) && CheckStmt(c, s) && WellTyped(c, s0.st)
    requires forall y :: y in ys ==> y in c.vars
    ensures var r := Exec(c, o, s, s0, fuel); r.Done? ==> WellTyped(c, r.s.st) && Agree(s0.st, r.s.st, ys)
    decreases fuel, s.body, 3
  {
    hide WellTyped, Agree, ExecAssign, ExecFor, SparesStore, CheckExpr;
    SparedStore(c, o, s.x, s.carets, s.from, s0, ys);
    var q := ExecAssign(c, o, s.x, s.carets, s.from, s0);
    if q.Done? {
      SparedRounds(c, o, s.x, s.to, s.body, q.s, fuel, ys);
      var z := ExecFor(c, o, s.x, s.to, s.body, q.s, fuel);
      if z.Done? {
        AgreeOn(s0.st, q.s.st, z.s.st, ys);
      }
    }
  }

  lemma SparedStore(c: Scope, o: Env, x: Name, k: nat, e: Expr, s0: SourceState, ys: set<Name>)
    requires SparesStore(c, x, k, ys) && CheckAssign(c, x, k, e) && WellTyped(c, s0.st)
    requires forall y :: y in ys ==> y in c.vars
    ensures var r := ExecAssign(c, o, x, k, e, s0); r.Done? ==> WellTyped(c, r.s.st) && Agree(s0.st, r.s.st, ys)
  {
    hide Eval, CheckExpr, Strip, Follow;
    AssignSound(c, o, x, k, e, s0);
    FollowSound(c, s0.st, x, k);
    StripNone(c.vars[x]);
    FollowNone(s0.st, x);
  }

  lemma StripNone(t: Ty)
    ensures Strip(t, 0) == Some(t)
  {}

  lemma FollowNone(st: Globals, x: Name)
    ensures Follow(st, x, 0) == Some(Some(x))
  {}

  lemma {:induction false} SparedRounds(c: Scope, o: Env, x: Name, to: Expr, b: Stmt, s0: SourceState, fuel: nat,
                                        ys: set<Name>)
    requires Spares(c, b, ys) && x !in ys && CheckStmt(c, b) && WellTyped(c, s0.st)
    requires forall y :: y in ys ==> y in c.vars
    requires x in c.vars && c.vars[x].TInt?
    ensures var r := ExecFor(c, o, x, to, b, s0, fuel); r.Done? ==> WellTyped(c, r.s.st) && Agree(s0.st, r.s.st, ys)
    decreases fuel, b, 1
  {
    hide Eval, CheckStmt, WellTyped, Agree, Spares, Bump, Flagged;
    SelfAgrees(c, s0.st, ys);
    var r := Eval(c, o, to, s0.st, s0.tr);
    if fuel > 0 && r.Val? {
      SparedStays(c, o, b, s0.(tr := r.tr), fuel, ys);
      var q := Exec(c, o, b, s0.(tr := r.tr), fuel);
      FlaggedDone(q);
      if q.Done? && x in q.s.st && q.s.st[x].VInt? {
        BumpSound(c, x, q.s);
        var s1 := Bump(q.s, x);
        BumpSpares(q.s, x, s0.st, ys);
        SparedRounds(c, o, x, to, b, s1, fuel - 1, ys);
        var z := ExecFor(c, o, x, to, b, s1, fuel - 1);
        FlaggedDone(z);
        if z.Done? {
          AgreeOn(s0.st, s1.st, z.s.st, ys);
        }
      }
    }
  }

  lemma FlaggedDone(r: Outcome)
    ensures forall a :: Flagged(r, a).Done? == r.Done? && (r.Done? ==> Flagged(r, a).s == r.s)
  {}

  lemma SelfAgrees(c: Scope, st: Globals, ys: set<Name>)
    requires WellTyped(c, st) && forall y :: y in ys ==> y in c.vars
    ensures Agree(st, st, ys)
  {}

  lemma AgreeOn(a: Globals, b: Globals, d: Globals, ys: set<Name>)
    requires Agree(a, b, ys) && Agree(b, d, ys)
    ensures Agree(a, d, ys)
  {}

  lemma BumpSpares(s: SourceState, x: Name, a: Globals, ys: set<Name>)
    requires x in s.st && s.st[x].VInt? && x !in ys && Agree(a, s.st, ys)
    ensures Agree(a, Bump(s, x).st, ys)
  {}

  lemma {:induction false} SparedAll(c: Scope, o: Env, ss: seq<Stmt>, s0: SourceState, fuel: nat, ys: set<Name>)
    requires (forall i :: 0 <= i < |ss| ==> Spares(c, ss[i], ys)) && CheckStmts(c, ss) && WellTyped(c, s0.st)
    requires forall y :: y in ys ==> y in c.vars
    ensures var r := ExecAll(c, o, ss, s0, fuel); r.Done? ==> WellTyped(c, r.s.st) && Agree(s0.st, r.s.st, ys)
    decreases fuel, ss, 0
  {
    hide WellTyped, Spares, Agree;
    SelfAgrees(c, s0.st, ys);
    if ss != [] {
      SparedStays(c, o, ss[0], s0, fuel, ys);
      var q := Exec(c, o, ss[0], s0, fuel);
      if q.Done? {
        SparedAll(c, o, ss[1..], q.s, fuel, ys);
        var z := ExecAll(c, o, ss[1..], q.s, fuel);
        if z.Done? {
          AgreeOn(s0.st, q.s.st, z.s.st, ys);
        }
      }
    }
  }

  /** The number of rounds from `lo` to `hi`. */
  function RoundCount(lo: Word, hi: Word): nat {
    if hi < lo then 0 else hi - lo + 1
  }

  /** Exactly `n` rounds, with no test: the bound for whatever it calls, the body, the increment. */
  function Rounds(c: Scope, o: Env, x: Name, to: Expr, b: Stmt, s: SourceState, n: nat, fuel: nat): Outcome
    decreases n
  {
    if n == 0 then Done(s, true)
    else if fuel == 0 then OutOfFuel(s, true)
    else
      match Eval(c, o, to, s.st, s.tr)
      case Val(_, tr, ok) =>
        (match Exec(c, o, b, s.(tr := tr), fuel)
         case Done(s1, ok1) =>
           if x !in s1.st || !s1.st[x].VInt? then Stray
           else Flagged(Rounds(c, o, x, to, b, Bump(s1, x), n - 1, fuel - 1), ok && ok1)
         case q => Flagged(q, ok))
      case Trap(k, tr, ok) => Trapped(k, s.(tr := tr), ok)
      case Wrong => Stray
  }

  /** The bound once more, for the test that ends the loop. */
  function LastBound(c: Scope, o: Env, to: Expr, r: Outcome): Outcome {
    match r
    case Done(s, ok) =>
      (match Eval(c, o, to, s.st, s.tr)
       case Val(_, tr, ok1) => Done(s.(tr := tr), ok && ok1)
       case Trap(k, tr, ok1) => Trapped(k, s.(tr := tr), ok && ok1)
       case Wrong => Stray)
    case q => q
  }

  /** Where the variable ends. */
  function LastValue(lo: Word, hi: Word): nat {
    if hi < lo then lo else hi + 1
  }

  /** All exit tests between `lo` and the end compare words on the same side of 2^63. */
  predicate SignedThroughout(lo: Word, hi: Word, done: bool) {
    (hi < HALF) == (lo < HALF) && (done ==> (hi < HALF) == (LastValue(lo, hi) < HALF))
  }

  /** Under the invariant the bound is `hi`; and if the loop goes on and the body finishes, the loop
      variable is what it was and the invariant holds again after the increment. */
  ghost predicate RoundKeeps(c: Scope, o: Env, x: Name, to: Expr, b: Stmt, hi: Word, inv: SourceState -> bool,
                             s: SourceState, fuel: nat)
  {
    inv(s) ==>
      var r := Eval(c, o, to, s.st, s.tr);
      && x in s.st && s.st[x].VInt? && r.Val? && r.v == VInt(hi)
      && (s.st[x].w <= hi ==>
            var q := Exec(c, o, b, s.(tr := r.tr), fuel);
            q.Done? ==> x in q.s.st && q.s.st[x] == s.st[x] && inv(Bump(q.s, x)))
  }

  /** The bound and the body do not interfere with the count: no syntactic condition, whatever they
      read, call or write through pointers. */
  ghost predicate Keeps(c: Scope, o: Env, x: Name, to: Expr, b: Stmt, hi: Word, inv: SourceState -> bool) {
    forall s: SourceState, fuel: nat :: RoundKeeps(c, o, x, to, b, hi, inv, s, fuel)
  }

  lemma ForExits(c: Scope, o: Env, x: Name, to: Expr, b: Stmt, s: SourceState, fuel: nat, v: Word, hi: Word)
    requires x in s.st && s.st[x] == VInt(v) && fuel > 0 && hi < v
    requires Eval(c, o, to, s.st, s.tr).Val? && Eval(c, o, to, s.st, s.tr).v == VInt(hi)
    ensures var r := Eval(c, o, to, s.st, s.tr);
      ExecFor(c, o, x, to, b, s, fuel) == Done(s.(tr := r.tr), r.ok && (hi < HALF) == (v < HALF))
  {
    hide Eval, Exec;
  }

  lemma RoundsNone(c: Scope, o: Env, x: Name, to: Expr, b: Stmt, s: SourceState, fuel: nat)
    ensures Rounds(c, o, x, to, b, s, 0, fuel) == Done(s, true)
  {}

  lemma RoundsGoOn(c: Scope, o: Env, x: Name, to: Expr, b: Stmt, s: SourceState, n: nat, fuel: nat)
    requires n > 0 && fuel > 0 && Eval(c, o, to, s.st, s.tr).Val?
    requires var q := Exec(c, o, b, s.(tr := Eval(c, o, to, s.st, s.tr).tr), fuel);
      q.Done? && x in q.s.st && q.s.st[x].VInt?
    ensures var r := Eval(c, o, to, s.st, s.tr);
      var q := Exec(c, o, b, s.(tr := r.tr), fuel);
      Rounds(c, o, x, to, b, s, n, fuel) == Flagged(Rounds(c, o, x, to, b, Bump(q.s, x), n - 1, fuel - 1), r.ok && q.ok)
  {
    hide Eval, Exec, Flagged, Bump;
  }

  lemma RoundsStop(c: Scope, o: Env, x: Name, to: Expr, b: Stmt, s: SourceState, n: nat, fuel: nat)
    requires n > 0 && fuel > 0 && Eval(c, o, to, s.st, s.tr).Val?
    requires !Exec(c, o, b, s.(tr := Eval(c, o, to, s.st, s.tr).tr), fuel).Done?
    ensures var r := Eval(c, o, to, s.st, s.tr);
      Rounds(c, o, x, to, b, s, n, fuel) == Flagged(Exec(c, o, b, s.(tr := r.tr), fuel), r.ok)
  {
    hide Eval, Exec, Flagged, Bump;
  }

  lemma LastBoundFlagged(c: Scope, o: Env, to: Expr, r: Outcome, a: bool)
    ensures LastBound(c, o, to, Flagged(r, a)) == Flagged(LastBound(c, o, to, r), a)
    ensures Flagged(r, a).Done? == r.Done?
  {
    hide Eval;
  }

  lemma FlagTwice(r: Outcome, a: bool, b: bool)
    ensures Flagged(Flagged(r, a), b) == Flagged(r, a && b) && Flagged(r, a).Done? == r.Done?
    ensures r.Done? ==> Flagged(r, a) == Done(r.s, r.ok && a)
  {}

  /** Flags only add up. */
  lemma FlagSum(r: Outcome, a: bool, b: bool, a': bool, b': bool)
    requires (a && b) == (a' && b')
    ensures Flagged(Flagged(r, a), b) == Flagged(Flagged(r, a'), b')
  {}

  /** If neither the body nor the bound changes the loop variable or the bound's value, the body runs
      exactly once for each value from the start to the bound; the emitted signed test follows exactly
      when all the tests compare words on the same side of 2^63. */
  lemma {:induction false} ForCounts(c: Scope, o: Env, x: Name, to: Expr, b: Stmt, inv: SourceState -> bool,
                                     s: SourceState, fuel: nat, v: Word, hi: Word)
    requires Keeps(c, o, x, to, b, hi, inv) && inv(s) && x in s.st && s.st[x] == VInt(v)
    requires hi + 1 < 0x1_0000_0000_0000_0000 && fuel > RoundCount(v, hi)
    ensures var r := Rounds(c, o, x, to, b, s, RoundCount(v, hi), fuel);
      ExecFor(c, o, x, to, b, s, fuel) == Flagged(LastBound(c, o, to, r), SignedThroughout(v, hi, r.Done?))
    decreases fuel
  {
    hide Eval, Exec, ExecFor, Bump, Rounds, Flagged, LastBound, SignedThroughout, Keeps, GoesOn, RoundFlag;
    KeepsRound(c, o, x, to, b, hi, inv, s, fuel);
    if v > hi {
      ForExits(c, o, x, to, b, s, fuel, v, hi);
      RoundsNone(c, o, x, to, b, s, fuel);
      ExitFlag(c, o, to, s, v, hi);
    } else {
      var q := Exec(c, o, b, s.(tr := Eval(c, o, to, s.st, s.tr).tr), fuel);
      if q.Done? {
        BumpValue(q.s, x, v);
        ForCounts(c, o, x, to, b, inv, Bump(q.s, x), fuel - 1, v + 1, hi);
        CountsOneMore(c, o, x, to, b, s, fuel, v, hi);
      } else {
        CountsNoMore(c, o, x, to, b, s, fuel, v, hi);
      }
    }
  }

  lemma FlagOfRound(c: Scope, o: Env, x: Name, to: Expr, s: SourceState)
    requires GoesOn(c, o, x, to, s)
    ensures var e := Eval(c, o, to, s.st, s.tr);
      && e.Val? && e.v.VInt? && x in s.st && s.st[x].VInt?
      && RoundFlag(c, o, x, to, s) == (e.ok && (e.v.w < HALF) == (s.st[x].w < HALF))
  {
    hide Eval;
  }

  /** A round that finishes, in front of rounds that are counted. */
  lemma CountsOneMore(c: Scope, o: Env, x: Name, to: Expr, b: Stmt, s: SourceState, fuel: nat, v: Word, hi: Word)
    requires GoesOn(c, o, x, to, s) && Eval(c, o, to, s.st, s.tr).v == VInt(hi) && s.st[x] == VInt(v)
    requires v <= hi && hi + 1 < 0x1_0000_0000_0000_0000 && fuel > 0
    requires var q := Exec(c, o, b, s.(tr := Eval(c, o, to, s.st, s.tr).tr), fuel);
      && q.Done? && x in q.s.st && q.s.st[x].VInt?
      && var s1 := Bump(q.s, x);
         var r1 := Rounds(c, o, x, to, b, s1, hi - v, fuel - 1);
         ExecFor(c, o, x, to, b, s1, fuel - 1) == Flagged(LastBound(c, o, to, r1),
                                                          SignedThroughout(v + 1, hi, r1.Done?))
    ensures var r := Rounds(c, o, x, to, b, s, hi - v + 1, fuel);
      ExecFor(c, o, x, to, b, s, fuel) == Flagged(LastBound(c, o, to, r), SignedThroughout(v, hi, r.Done?))
  {
    hide Eval, Exec, ExecFor, Bump, Rounds, Flagged, LastBound, SignedThroughout, GoesOn, RoundFlag;
    var e := Eval(c, o, to, s.st, s.tr);
    var same := (hi < HALF) == (v < HALF);
    FlagOfRound(c, o, x, to, s);
    var q := Exec(c, o, b, s.(tr := e.tr), fuel);
    RoundUnfolds(c, o, x, to, b, s, fuel);
    RoundsGoOn(c, o, x, to, b, s, hi - v + 1, fuel);
    RoundsNone(c, o, x, to, b, Bump(q.s, x), fuel - 1);
    RoundAdds(c, o, to, Rounds(c, o, x, to, b, Bump(q.s, x), hi - v, fuel - 1), v, hi, e.ok, same, q.ok);
  }

  lemma CountsNoMore(c: Scope, o: Env, x: Name, to: Expr, b: Stmt, s: SourceState, fuel: nat, v: Word, hi: Word)
    requires GoesOn(c, o, x, to, s) && Eval(c, o, to, s.st, s.tr).v == VInt(hi) && s.st[x] == VInt(v) && v <= hi
    requires fuel > 0
    requires !Exec(c, o, b, s.(tr := Eval(c, o, to, s.st, s.tr).tr), fuel).Done?
    ensures var r := Rounds(c, o, x, to, b, s, hi - v + 1, fuel);
      ExecFor(c, o, x, to, b, s, fuel) == Flagged(LastBound(c, o, to, r), SignedThroughout(v, hi, r.Done?))
  {
    hide Eval, Exec, ExecFor, Bump, Rounds, Flagged, LastBound, SignedThroughout, GoesOn, RoundFlag;
    var e := Eval(c, o, to, s.st, s.tr);
    var same := (hi < HALF) == (v < HALF);
    FlagOfRound(c, o, x, to, s);
    RoundUnfolds(c, o, x, to, b, s, fuel);
    RoundsStop(c, o, x, to, b, s, hi - v + 1, fuel);
    RoundCuts(c, o, to, Exec(c, o, b, s.(tr := e.tr), fuel), v, hi, e.ok, same);
  }

  lemma KeepsRound(c: Scope, o: Env, x: Name, to: Expr, b: Stmt, hi: Word, inv: SourceState -> bool, s: SourceState,
                   fuel: nat)
    requires Keeps(c, o, x, to, b, hi, inv) && inv(s)
    ensures var r := Eval(c, o, to, s.st, s.tr);
      && x in s.st && s.st[x].VInt? && r.Val? && r.v == VInt(hi)
      && (s.st[x].w <= hi ==>
            && GoesOn(c, o, x, to, s)
            && var q := Exec(c, o, b, s.(tr := r.tr), fuel);
               q.Done? ==> x in q.s.st && q.s.st[x] == s.st[x] && inv(Bump(q.s, x)))
  {
    hide Eval, Exec, Bump;
    assert RoundKeeps(c, o, x, to, b, hi, inv, s, fuel);
  }

  lemma BumpValue(s: SourceState, x: Name, v: Word)
    requires x in s.st && s.st[x] == VInt(v) && v + 1 < 0x1_0000_0000_0000_0000
    ensures x in Bump(s, x).st && Bump(s, x).st[x] == VInt(v + 1)
  {}

  /** The flags of a finished round and of the rounds `r` behind it. */
  lemma RoundAdds(c: Scope, o: Env, to: Expr, r: Outcome, v: Word, hi: Word, ok: bool, same: bool, ok1: bool)
    requires v <= hi && hi + 1 < 0x1_0000_0000_0000_0000 && (v == hi ==> r.Done?) && same == ((hi < HALF) == (v < HALF))
    ensures Flagged(Flagged(LastBound(c, o, to, r), SignedThroughout(v + 1, hi, r.Done?)), ok && same && ok1)
         == Flagged(LastBound(c, o, to, Flagged(r, ok && ok1)), SignedThroughout(v, hi, Flagged(r, ok && ok1).Done?))
  {
    hide Flagged, LastBound, SignedThroughout;
    LastBoundFlagged(c, o, to, r, ok && ok1);
    TestsAddUp(v, hi, r.Done?);
    FlagSum(LastBound(c, o, to, r), SignedThroughout(v + 1, hi, r.Done?), ok && same && ok1,
            ok && ok1, SignedThroughout(v, hi, r.Done?));
  }

  /** The flags of a round that the body does not finish. */
  lemma RoundCuts(c: Scope, o: Env, to: Expr, q: Outcome, v: Word, hi: Word, ok: bool, same: bool)
    requires !q.Done? && same == ((hi < HALF) == (v < HALF))
    ensures Flagged(q, ok && same)
         == Flagged(LastBound(c, o, to, Flagged(q, ok)), SignedThroughout(v, hi, Flagged(q, ok).Done?))
  {
    hide Flagged, LastBound, SignedThroughout;
    LastBoundFlagged(c, o, to, q, ok);
    NotDoneBound(c, o, to, q);
    TestsSoFar(v, hi);
    FlagSum(q, ok && same, true, ok, SignedThroughout(v, hi, false));
    FlagOnce(Flagged(q, ok && same));
  }

  lemma TestsAddUp(v: Word, hi: Word, done: bool)
    requires v <= hi && (v == hi ==> done) && hi + 1 < 0x1_0000_0000_0000_0000
    ensures SignedThroughout(v, hi, done) <==> (hi < HALF) == (v < HALF) && SignedThroughout(v + 1, hi, done)
  {}

  lemma ExitFlag(c: Scope, o: Env, to: Expr, s: SourceState, v: Word, hi: Word)
    requires Eval(c, o, to, s.st, s.tr).Val? && hi < v
    ensures var r := Eval(c, o, to, s.st, s.tr);
      Flagged(LastBound(c, o, to, Done(s, true)), SignedThroughout(v, hi, true))
        == Done(s.(tr := r.tr), r.ok && (hi < HALF) == (v < HALF))
  {
    hide Eval;
  }

  lemma NotDoneBound(c: Scope, o: Env, to: Expr, r: Outcome)
    requires !r.Done?
    ensures LastBound(c, o, to, r) == r && forall a :: !Flagged(r, a).Done?
  {}

  lemma TestsSoFar(v: Word, hi: Word)
    ensures SignedThroughout(v, hi, false) <==> (hi < HALF) == (v < HALF)
  {}

  lemma FlagOnce(r: Outcome)
    ensures Flagged(r, true) == r
  {}

  /** A FOR up to the largest word never ends: its variable wraps around. */
  lemma {:induction false} ForToTheTop(c: Scope, o: Env, x: Name, to: Expr, b: Stmt, inv: SourceState -> bool,
                                       s: SourceState, fuel: nat)
    requires Keeps(c, o, x, to, b, 0xFFFF_FFFF_FFFF_FFFF, inv) && inv(s)
    ensures !ExecFor(c, o, x, to, b, s, fuel).Done?
    decreases fuel
  {
    hide Eval, Exec, ExecFor, Bump, Flagged, Keeps, GoesOn, RoundFlag;
    KeepsRound(c, o, x, to, b, 0xFFFF_FFFF_FFFF_FFFF, inv, s, fuel);
    if fuel == 0 {
      NoRounds(c, o, x, to, b, s);
    } else {
      var q := Exec(c, o, b, s.(tr := Eval(c, o, to, s.st, s.tr).tr), fuel);
      RoundDone(c, o, x, to, b, s, fuel, q);
      if q.Done? {
        ForToTheTop(c, o, x, to, b, inv, Bump(q.s, x), fuel - 1);
      }
    }
  }

  /** When a FOR that goes on is done. */
  lemma RoundDone(c: Scope, o: Env, x: Name, to: Expr, b: Stmt, s: SourceState, fuel: nat, q: Outcome)
    requires GoesOn(c, o, x, to, s) && fuel > 0 && Eval(c, o, to, s.st, s.tr).Val?
    requires q == Exec(c, o, b, s.(tr := Eval(c, o, to, s.st, s.tr).tr), fuel)
    ensures !q.Done? ==> !ExecFor(c, o, x, to, b, s, fuel).Done?
    ensures q.Done? && x in q.s.st && q.s.st[x].VInt? ==>
              ExecFor(c, o, x, to, b, s, fuel).Done? == ExecFor(c, o, x, to, b, Bump(q.s, x), fuel - 1).Done?
  {
    hide Eval, Exec, ExecFor, Bump, Flagged, GoesOn, RoundFlag;
    RoundUnfolds(c, o, x, to, b, s, fuel);
    FlaggedDone(q);
    if q.Done? && x in q.s.st && q.s.st[x].VInt? {
      FlaggedDone(ExecFor(c, o, x, to, b, Bump(q.s, x), fuel - 1));
    }
  }

  /** The variable has the value `v + j` after `j` rounds: lo, lo + 1, ..., hi in the body, and
      max(lo, hi + 1) in the end. */
  lemma {:induction false} RoundValue(c: Scope, o: Env, x: Name, to: Expr, b: Stmt, inv: SourceState -> bool,
                                      s: SourceState, fuel: nat, v: Word, hi: Word, j: nat)
    requires Keeps(c, o, x, to, b, hi, inv) && inv(s) && x in s.st && s.st[x] == VInt(v)
    requires hi + 1 < 0x1_0000_0000_0000_0000 && j <= RoundCount(v, hi)
    ensures var r := Rounds(c, o, x, to, b, s, j, fuel);
      r.Done? ==> x in r.s.st && r.s.st[x] == VInt(v + j) && inv(r.s)
    decreases j
  {
    hide Eval, Exec, Bump, Flagged, Keeps, Rounds, GoesOn, RoundCount;
    if j == 0 {
      RoundsNone(c, o, x, to, b, s, fuel);
    } else if fuel == 0 {
      NoFuelRounds(c, o, x, to, b, s, j);
    } else {
      var q := KeptRound(c, o, x, to, b, hi, inv, s, fuel, v, j);
      if q.Done? {
        RoundValue(c, o, x, to, b, inv, Bump(q.s, x), fuel - 1, v + 1, hi, j - 1);
      }
    }
  }

  /** The first of `j` rounds. */
  lemma KeptRound(c: Scope, o: Env, x: Name, to: Expr, b: Stmt, hi: Word, inv: SourceState -> bool, s: SourceState,
                  fuel: nat, v: Word, j: nat) returns (q: Outcome)
    requires Keeps(c, o, x, to, b, hi, inv) && inv(s) && x in s.st && s.st[x] == VInt(v)
    requires hi + 1 < 0x1_0000_0000_0000_0000 && 0 < j <= RoundCount(v, hi) && fuel > 0
    ensures v + 1 < 0x1_0000_0000_0000_0000 && j - 1 <= RoundCount(v + 1, hi)
    ensures q.Done? ==> x in q.s.st && q.s.st[x].VInt?
    ensures q.Done? ==>
              var s1 := Bump(q.s, x);
              var r, r1 := Rounds(c, o, x, to, b, s, j, fuel), Rounds(c, o, x, to, b, s1, j - 1, fuel - 1);
              && inv(s1) && x in s1.st && s1.st[x] == VInt(v + 1)
              && r.Done? == r1.Done? && (r.Done? ==> r.s == r1.s)
    ensures !q.Done? ==> !Rounds(c, o, x, to, b, s, j, fuel).Done?
  {
    hide Eval, Exec, Bump, Flagged, Keeps, Rounds, GoesOn, RoundCount;
    CountNext(v, hi, j);
    KeepsRound(c, o, x, to, b, hi, inv, s, fuel);
    q := Exec(c, o, b, s.(tr := Eval(c, o, to, s.st, s.tr).tr), fuel);
    if q.Done? {
      RoundsDone(c, o, x, to, b, s, j, fuel);
      BumpValue(q.s, x, v);
    } else {
      RoundsNotDone(c, o, x, to, b, s, j, fuel);
    }
  }

  lemma CountNext(v: Word, hi: Word, j: nat)
    requires 0 < j <= RoundCount(v, hi) && hi + 1 < 0x1_0000_0000_0000_0000
    ensures v <= hi && v + 1 < 0x1_0000_0000_0000_0000 && j - 1 <= RoundCount(v + 1, hi)
  {}

  /** When rounds are done, and where. */
  lemma RoundsDone(c: Scope, o: Env, x: Name, to: Expr, b: Stmt, s: SourceState, n: nat, fuel: nat)
    requires n > 0 && fuel > 0 && Eval(c, o, to, s.st, s.tr).Val?
    requires var q := Exec(c, o, b, s.(tr := Eval(c, o, to, s.st, s.tr).tr), fuel);
      q.Done? && x in q.s.st && q.s.st[x].VInt?
    ensures var q := Exec(c, o, b, s.(tr := Eval(c, o, to, s.st, s.tr).tr), fuel);
      var r, r1 := Rounds(c, o, x, to, b, s, n, fuel), Rounds(c, o, x, to, b, Bump(q.s, x), n - 1, fuel - 1);
      r.Done? == r1.Done? && (r.Done? ==> r.s == r1.s)
  {
    hide Eval, Exec, Bump, Flagged, Rounds;
    var q := Exec(c, o, b, s.(tr := Eval(c, o, to, s.st, s.tr).tr), fuel);
    RoundsGoOn(c, o, x, to, b, s, n, fuel);
    FlaggedDone(Rounds(c, o, x, to, b, Bump(q.s, x), n - 1, fuel - 1));
  }

  lemma RoundsNotDone(c: Scope, o: Env, x: Name, to: Expr, b: Stmt, s: SourceState, n: nat, fuel: nat)
    requires n > 0 && fuel > 0 && Eval(c, o, to, s.st, s.tr).Val?
    requires !Exec(c, o, b, s.(tr := Eval(c, o, to, s.st, s.tr).tr), fuel).Done?
    ensures !Rounds(c, o, x, to, b, s, n, fuel).Done?
  {
    hide Eval, Exec, Bump, Flagged, Rounds;
    RoundsStop(c, o, x, to, b, s, n, fuel);
    FlaggedDone(Exec(c, o, b, s.(tr := Eval(c, o, to, s.st, s.tr).tr), fuel));
  }

  lemma NoFuelRounds(c: Scope, o: Env, x: Name, to: Expr, b: Stmt, s: SourceState, n: nat)
    requires n > 0
    ensures !Rounds(c, o, x, to, b, s, n, 0).Done?
  {}

  lemma ForStarts(c: Scope, o: Env, x: Name, from: Expr, to: Expr, b: Stmt, s: SourceState, fuel: nat, lo: Word,
                  tr: Trace, ok1: bool)
    requires x in s.st && Eval(c, o, from, s.st, s.tr) == Val(VInt(lo), tr, ok1)
    ensures Exec(c, o, ForTo(x, 0, from, to, b), s, fuel)
         == Flagged(ExecFor(c, o, x, to, b, s.(st := s.st[x := VInt(lo)], tr := tr), fuel), ok1)
  {
    hide Eval, ExecFor, Flagged;
    FollowNone(s.st, x);
    assert ExecAssign(c, o, x, 0, from, s) == Done(s.(st := s.st[x := VInt(lo)], tr := tr), ok1);
  }

  lemma LastBoundState(c: Scope, o: Env, to: Expr, r: Outcome, a: bool)
    ensures var q := Flagged(LastBound(c, o, to, r), a);
      q.Done? ==> r.Done? && q.s.st == r.s.st && q.s.leaks == r.s.leaks
  {
    hide Eval;
  }

  /** A whole FOR: the body runs max(0, hi - lo + 1) times and the variable ends at max(lo, hi + 1). */
  lemma ForStatementCounts(c: Scope, o: Env, x: Name, from: Expr, to: Expr, b: Stmt, inv: SourceState -> bool,
                           s: SourceState, fuel: nat, lo: Word, hi: Word, tr: Trace, ok: bool)
    requires x in s.st && Eval(c, o, from, s.st, s.tr) == Val(VInt(lo), tr, ok)
    requires Keeps(c, o, x, to, b, hi, inv) && inv(s.(st := s.st[x := VInt(lo)], tr := tr))
    requires hi + 1 < 0x1_0000_0000_0000_0000 && fuel > RoundCount(lo, hi)
    ensures var r := Rounds(c, o, x, to, b, s.(st := s.st[x := VInt(lo)], tr := tr), RoundCount(lo, hi), fuel);
      var q := Exec(c, o, ForTo(x, 0, from, to, b), s, fuel);
      && q == Flagged(LastBound(c, o, to, r), ok && SignedThroughout(lo, hi, r.Done?))
      && (q.Done? ==> x in q.s.st && q.s.st[x] == VInt(LastValue(lo, hi)))
  {
    hide Eval, Keeps, ExecFor, Rounds, Exec, Flagged, LastBound, SignedThroughout;
    var start := s.(st := s.st[x := VInt(lo)], tr := tr);
    var n := RoundCount(lo, hi);
    ForCounts(c, o, x, to, b, inv, start, fuel, lo, hi);
    RoundValue(c, o, x, to, b, inv, start, fuel, lo, hi, n);
    var r := Rounds(c, o, x, to, b, start, n, fuel);
    FlagTwice(LastBound(c, o, to, r), SignedThroughout(lo, hi, r.Done?), ok);
    ForStarts(c, o, x, from, to, b, s, fuel, lo, tr, ok);
    LastBoundState(c, o, to, r, ok && SignedThroughout(lo, hi, r.Done?));
  }

  // ---------- bodies and bounds that can be read off the text ----------

  /** The body exactly `n` times, each time followed by the increment. */
  function Repeat(c: Scope, o: Env, x: Name, b: Stmt, s: SourceState, n: nat, fuel: nat): Outcome
    decreases n
  {
    if n == 0 then Done(s, true)
    else if fuel == 0 then OutOfFuel(s, true)
    else
      match Exec(c, o, b, s, fuel)
      case Done(s1, ok) =>
        if x !in s1.st || !s1.st[x].VInt? then Stray
        else Flagged(Repeat(c, o, x, b, Bump(s1, x), n - 1, fuel - 1), ok)
      case q => q
  }

  /** The bound and the body do not interfere with the count. */
  ghost predicate Steady(c: Scope, x: Name, to: Expr, b: Stmt, ys: set<Name>) {
    && x in c.vars && c.vars[x].TInt? && x !in ys && (forall y :: y in ys ==> y in c.vars)
    && CheckExpr(c, to) == Some(TInt) && ReadsOnly(c, to, ys)
    && CheckStmt(c, b) && Spares(c, b, ys + {x})
  }

  /** One round leaves the bound as it was and moves the variable up by one. */
  lemma OneRound(c: Scope, o: Env, x: Name, to: Expr, b: Stmt, ys: set<Name>, s: SourceState, fuel: nat, v: Word,
                 hi: Word, ok: bool)
    requires Steady(c, x, to, b, ys) && WellTyped(c, s.st) && s.st[x] == VInt(v)
    requires Eval(c, o, to, s.st, s.tr) == Val(VInt(hi), s.tr, ok)
    ensures var q := Exec(c, o, b, s, fuel);
      q.Done? ==>
        && x in q.s.st && q.s.st[x] == VInt(v)
        && var s1 := Bump(q.s, x);
           && WellTyped(c, s1.st) && s1.st[x] == VInt(Wrap(v + 1))
           && Eval(c, o, to, s1.st, s1.tr) == Val(VInt(hi), s1.tr, ok)
  {
    hide Eval, Exec, CheckStmt, CheckExpr, Spares, ReadsOnly;
    SparedStays(c, o, b, s, fuel, ys + {x});
    var q := Exec(c, o, b, s, fuel);
    if q.Done? {
      assert x in ys + {x};
      BumpSound(c, x, q.s);
      EvalAgrees(c, o, to, s.st, Bump(q.s, x).st, s.tr, q.s.tr, ys);
    }
  }

  lemma RepeatGoesOn(c: Scope, o: Env, x: Name, b: Stmt, s: SourceState, n: nat, fuel: nat)
    requires n > 0 && fuel > 0
    ensures var q := Exec(c, o, b, s, fuel);
      && (q.Done? && x in q.s.st && q.s.st[x].VInt? ==>
            Repeat(c, o, x, b, s, n, fuel) == Flagged(Repeat(c, o, x, b, Bump(q.s, x), n - 1, fuel - 1), q.ok))
      && (!q.Done? ==> Repeat(c, o, x, b, s, n, fuel) == q)
  {
    hide Exec, Flagged;
  }

  lemma RepeatNone(c: Scope, o: Env, x: Name, b: Stmt, s: SourceState, fuel: nat)
    ensures Repeat(c, o, x, b, s, 0, fuel) == Done(s, true)
  {}

  lemma PureBound(c: Scope, o: Env, to: Expr, s: SourceState, hi: Word, ok: bool)
    requires Eval(c, o, to, s.st, s.tr) == Val(VInt(hi), s.tr, ok)
    ensures LastBound(c, o, to, Done(s, true)) == Flagged(Done(s, true), ok) && s.(tr := s.tr) == s
  {
    hide Eval;
  }

  /** With a bound that calls nothing, the rounds are the body and the increment. */
  lemma {:induction false} PureRounds(c: Scope, o: Env, x: Name, to: Expr, b: Stmt, ys: set<Name>, s: SourceState,
                                      n: nat, fuel: nat, v: Word, hi: Word, ok: bool)
    requires Steady(c, x, to, b, ys) && WellTyped(c, s.st) && x in s.st && s.st[x] == VInt(v)
    requires Eval(c, o, to, s.st, s.tr) == Val(VInt(hi), s.tr, ok) && fuel > n
    ensures var r := Repeat(c, o, x, b, s, n, fuel);
      && LastBound(c, o, to, Rounds(c, o, x, to, b, s, n, fuel)) == Flagged(r, ok)
      && Rounds(c, o, x, to, b, s, n, fuel).Done? == r.Done?
    decreases n
  {
    hide Eval, Exec, Steady, WellTyped, Rounds, Repeat, Flagged, LastBound, Bump, Wrap;
    if n > 0 {
      OneRound(c, o, x, to, b, ys, s, fuel, v, hi, ok);
      var q := Exec(c, o, b, s, fuel);
      if q.Done? {
        SteadyVar(c, x, to, b, ys, Bump(q.s, x).st);
        PureRounds(c, o, x, to, b, ys, Bump(q.s, x), n - 1, fuel - 1, Wrap(v + 1), hi, ok);
        PureStep(c, o, x, to, b, s, n, fuel, hi, ok);
      } else {
        PureStop(c, o, x, to, b, s, n, fuel, hi, ok);
      }
    } else {
      PureBound(c, o, to, s, hi, ok);
      RoundsNone(c, o, x, to, b, s, fuel);
      RepeatNone(c, o, x, b, s, fuel);
    }
  }

  lemma PureStep(c: Scope, o: Env, x: Name, to: Expr, b: Stmt, s: SourceState, n: nat, fuel: nat, hi: Word, ok: bool)
    requires Eval(c, o, to, s.st, s.tr) == Val(VInt(hi), s.tr, ok) && n > 0 && fuel > 0
    requires var q := Exec(c, o, b, s, fuel);
      && q.Done? && x in q.s.st && q.s.st[x].VInt?
      && var r := Rounds(c, o, x, to, b, Bump(q.s, x), n - 1, fuel - 1);
         var p := Repeat(c, o, x, b, Bump(q.s, x), n - 1, fuel - 1);
         LastBound(c, o, to, r) == Flagged(p, ok) && r.Done? == p.Done?
    ensures var r, p := Rounds(c, o, x, to, b, s, n, fuel), Repeat(c, o, x, b, s, n, fuel);
      LastBound(c, o, to, r) == Flagged(p, ok) && r.Done? == p.Done?
  {
    hide Eval, Exec, Rounds, Repeat, Flagged, LastBound, Bump;
    var q := Exec(c, o, b, s, fuel);
    PureBound(c, o, to, s, hi, ok);
    RepeatGoesOn(c, o, x, b, s, n, fuel);
    RoundsGoOn(c, o, x, to, b, s, n, fuel);
    PureMore(c, o, to, Rounds(c, o, x, to, b, Bump(q.s, x), n - 1, fuel - 1),
             Repeat(c, o, x, b, Bump(q.s, x), n - 1, fuel - 1), ok, q.ok);
  }

  lemma PureStop(c: Scope, o: Env, x: Name, to: Expr, b: Stmt, s: SourceState, n: nat, fuel: nat, hi: Word, ok: bool)
    requires Eval(c, o, to, s.st, s.tr) == Val(VInt(hi), s.tr, ok) && n > 0 && fuel > 0 && !Exec(c, o, b, s, fuel).Done?
    ensures var r, p := Rounds(c, o, x, to, b, s, n, fuel), Repeat(c, o, x, b, s, n, fuel);
      LastBound(c, o, to, r) == Flagged(p, ok) && r.Done? == p.Done?
  {
    hide Eval, Exec, Rounds, Repeat, Flagged, LastBound, Bump;
    var q := Exec(c, o, b, s, fuel);
    PureBound(c, o, to, s, hi, ok);
    RepeatGoesOn(c, o, x, b, s, n, fuel);
    RoundsStop(c, o, x, to, b, s, n, fuel);
    LastBoundFlagged(c, o, to, q, ok);
    NotDoneBound(c, o, to, q);
  }

  lemma PureMore(c: Scope, o: Env, to: Expr, r: Outcome, p: Outcome, ok: bool, ok1: bool)
    requires LastBound(c, o, to, r) == Flagged(p, ok) && r.Done? == p.Done?
    ensures LastBound(c, o, to, Flagged(r, ok && ok1)) == Flagged(Flagged(p, ok1), ok)
    ensures Flagged(r, ok && ok1).Done? == Flagged(p, ok1).Done?
  {
    hide LastBound, Flagged;
    LastBoundFlagged(c, o, to, r, ok && ok1);
    FlagSum(p, ok, ok && ok1, ok1, ok);
    FlaggedDone(r);
    FlaggedDone(p);
  }

  /** The invariant of a steady loop. */
  ghost predicate Rested(c: Scope, o: Env, to: Expr, hi: Word, ok: bool, s: SourceState) {
    WellTyped(c, s.st) && Eval(c, o, to, s.st, s.tr) == Val(VInt(hi), s.tr, ok)
  }

  lemma RestedKeeps(c: Scope, o: Env, x: Name, to: Expr, b: Stmt, ys: set<Name>, hi: Word, ok: bool, s: SourceState,
                    fuel: nat)
    requires Steady(c, x, to, b, ys) && Rested(c, o, to, hi, ok, s)
    ensures var r := Eval(c, o, to, s.st, s.tr);
      && x in s.st && s.st[x].VInt? && r.Val? && r.v == VInt(hi)
      && var q := Exec(c, o, b, s.(tr := r.tr), fuel);
         q.Done? ==> x in q.s.st && q.s.st[x] == s.st[x] && Rested(c, o, to, hi, ok, Bump(q.s, x))
  {
    hide Eval, Exec, Steady, WellTyped, Bump;
    SteadyVar(c, x, to, b, ys, s.st);
    PureBound(c, o, to, s, hi, ok);
    OneRound(c, o, x, to, b, ys, s, fuel, s.st[x].w, hi, ok);
  }

  lemma SteadyKeeps(c: Scope, o: Env, x: Name, to: Expr, b: Stmt, ys: set<Name>, hi: Word, ok: bool)
    returns (inv: SourceState -> bool)
    requires Steady(c, x, to, b, ys)
    ensures Keeps(c, o, x, to, b, hi, inv) && forall s :: inv(s) <==> Rested(c, o, to, hi, ok, s)
  {
    hide Rested, RoundKeeps, Steady;
    inv := s => Rested(c, o, to, hi, ok, s);
    forall s: SourceState, fuel: nat ensures RoundKeeps(c, o, x, to, b, hi, inv, s, fuel) {
      RestedRound(c, o, x, to, b, ys, hi, ok, inv, s, fuel);
    }
  }

  lemma RestedRound(c: Scope, o: Env, x: Name, to: Expr, b: Stmt, ys: set<Name>, hi: Word, ok: bool,
                    inv: SourceState -> bool, s: SourceState, fuel: nat)
    requires Steady(c, x, to, b, ys) && forall s' :: inv(s') <==> Rested(c, o, to, hi, ok, s')
    ensures RoundKeeps(c, o, x, to, b, hi, inv, s, fuel)
  {
    hide Eval, Exec, Steady, Rested, Bump;
    if inv(s) {
      RestedKeeps(c, o, x, to, b, ys, hi, ok, s, fuel);
    }
  }

  /** The variable has the value `v + j` after `j` rounds: lo, lo + 1, ..., hi in the body, and
      max(lo, hi + 1) in the end. */
  lemma {:induction false} SteadyValue(c: Scope, o: Env, x: Name, to: Expr, b: Stmt, ys: set<Name>, s: SourceState,
                                       fuel: nat, v: Word, hi: Word, ok: bool, j: nat)
    requires Steady(c, x, to, b, ys) && WellTyped(c, s.st) && s.st[x] == VInt(v)
    requires Eval(c, o, to, s.st, s.tr) == Val(VInt(hi), s.tr, ok)
    requires v + j < 0x1_0000_0000_0000_0000
    ensures var r := Repeat(c, o, x, b, s, j, fuel);
      r.Done? ==> x in r.s.st && r.s.st[x] == VInt(v + j)
    decreases j
  {
    hide Eval, Exec, Steady, WellTyped;
    if j > 0 && fuel > 0 {
      OneRound(c, o, x, to, b, ys, s, fuel, v, hi, ok);
      var q := Exec(c, o, b, s, fuel);
      if q.Done? {
        SteadyValue(c, o, x, to, b, ys, Bump(q.s, x), fuel - 1, v + 1, hi, ok, j - 1);
      }
    } else {
      assert x in s.st by {
        SteadyVar(c, x, to, b, ys, s.st);
      }
    }
  }

  lemma SteadyVar(c: Scope, x: Name, to: Expr, b: Stmt, ys: set<Name>, st: Globals)
    requires Steady(c, x, to, b, ys) && WellTyped(c, st)
    ensures x in st && st[x].VInt?
  {
    LoopVariableInteger(c, x, to, b, ys);
    assert HasType(c, st[x], c.vars[x]);
  }

  /** A body and a bound that, by their text, cannot change the count: the body runs exactly once for
      each value from the start to the bound. */
  lemma SteadyCounts(c: Scope, o: Env, x: Name, to: Expr, b: Stmt, ys: set<Name>, s: SourceState, fuel: nat, v: Word,
                     hi: Word, ok: bool)
    requires Steady(c, x, to, b, ys) && WellTyped(c, s.st) && s.st[x] == VInt(v)
    requires Eval(c, o, to, s.st, s.tr) == Val(VInt(hi), s.tr, ok)
    requires hi + 1 < 0x1_0000_0000_0000_0000 && fuel > RoundCount(v, hi)
    ensures var r := Repeat(c, o, x, b, s, RoundCount(v, hi), fuel);
      ExecFor(c, o, x, to, b, s, fuel) == Flagged(r, ok && SignedThroughout(v, hi, r.Done?))
  {
    hide Eval, Exec, ExecFor, Steady, WellTyped, Rounds, Repeat, Flagged, LastBound, Keeps, SignedThroughout;
    SteadyVar(c, x, to, b, ys, s.st);
    var inv := SteadyKeeps(c, o, x, to, b, ys, hi, ok);
    var n := RoundCount(v, hi);
    ForCounts(c, o, x, to, b, inv, s, fuel, v, hi);
    PureRounds(c, o, x, to, b, ys, s, n, fuel, v, hi, ok);
    FlagTwice(Repeat(c, o, x, b, s, n, fuel), ok, SignedThroughout(v, hi, Repeat(c, o, x, b, s, n, fuel).Done?));
  }

  /** The same for a whole FOR, with the value the variable ends with. */
  lemma SteadyStatementCounts(c: Scope, o: Env, x: Name, from: Expr, to: Expr, b: Stmt, ys: set<Name>, s: SourceState,
                              fuel: nat, lo: Word, hi: Word, tr: Trace, ok1: bool, ok: bool)
    requires Steady(c, x, to, b, ys) && WellTyped(c, s.st)
    requires Eval(c, o, from, s.st, s.tr) == Val(VInt(lo), tr, ok1)
    requires Eval(c, o, to, s.st[x := VInt(lo)], tr) == Val(VInt(hi), tr, ok)
    requires hi + 1 < 0x1_0000_0000_0000_0000 && fuel > RoundCount(lo, hi)
    ensures var r := Repeat(c, o, x, b, s.(st := s.st[x := VInt(lo)], tr := tr), RoundCount(lo, hi), fuel);
      && Exec(c, o, ForTo(x, 0, from, to, b), s, fuel) == Flagged(r, ok1 && ok && SignedThroughout(lo, hi, r.Done?))
      && (r.Done? ==> x in r.s.st && r.s.st[x] == VInt(LastValue(lo, hi)))
  {
    hide Eval, Steady, ExecFor, Repeat, Exec, Flagged, SignedThroughout, WellTyped;
    SteadyVar(c, x, to, b, ys, s.st);
    var start := s.(st := s.st[x := VInt(lo)], tr := tr);
    StoreTyped(c, x, to, b, ys, s.st, lo);
    var n := RoundCount(lo, hi);
    SteadyCounts(c, o, x, to, b, ys, start, fuel, lo, hi, ok);
    SteadyValue(c, o, x, to, b, ys, start, fuel, lo, hi, ok, n);
    var r := Repeat(c, o, x, b, start, n, fuel);
    FlagTwice(r, ok && SignedThroughout(lo, hi, r.Done?), ok1);
    ForStarts(c, o, x, from, to, b, s, fuel, lo, tr, ok1);
  }

  lemma StoreTyped(c: Scope, x: Name, to: Expr, b: Stmt, ys: set<Name>, st: Globals, lo: Word)
    requires Steady(c, x, to, b, ys) && WellTyped(c, st)
    ensures WellTyped(c, st[x := VInt(lo)])
  {
    LoopVariableInteger(c, x, to, b, ys);
  }

  lemma LoopVariableInteger(c: Scope, x: Name, to: Expr, b: Stmt, ys: set<Name>)
    requires Steady(c, x, to, b, ys)
    ensures x in c.vars && c.vars[x].TInt?
  {}
}
