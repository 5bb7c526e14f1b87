/** What holds of every run of every accepted program, the departures included. The machine follows
    some well-typed outcome and never gets stuck. At every moment BOOLEAN words are 0 or all ones and
    pointers are null or the address of a global of their type, no word below the stack of a part has
    been popped by it, and the only faults are divisions by zero and accesses through null. */
module MachineSafety {
  import opened Words
  import opened Memory
  import opened Syntax
  import opened Typing
  import opened Machine
  import opened Emission
  import opened Semantics
  import opened Soundness
  import opened Simulation
  import opened Steps
  import opened Fragments
  import opened ExprSim
  import opened StmtSim
  import opened Preservation
  import opened Isolation
  import opened ExprSafety
  import opened SilentCode
  import opened Grammar
  import opened Declarations
  import opened EndToEnd
  import opened Departures

  // ---------- expressions by themselves ----------

  /** An expression never reaches below its stack and never writes memory, at any step. */
  lemma ExprKeepsStack(P: seq<Instr>, c: Scope, o: Env, e: Expr, tag: nat, st: Globals, m: State)
    returns (n: nat, r: Result)
    requires Start(P, c, o, st, m) && CheckExpr(c, e).Some? && CodeAt(P, m.pc, ExprCode(c, e, tag).code)
    ensures Clean(r) && Sound(c, r, CheckExpr(c, e).value)
    ensures Mirrors(P, o, m, n, |ExprCode(c, e, tag).code|, m.stk, m.rsp - 8, r, true, true)
    ensures forall k :: 0 <= k <= n ==> StandsOn(Run(P, o, m, k).stk, m.stk) && Run(P, o, m, k).mem == m.mem
  {
    hide Step, Run, ExprCode, CheckExpr, Represents, WellTyped, Linked, Sound, CodeAt, Only, UniqueLabels;
    var code := ExprCode(c, e, tag).code;
    var hi := m.pc + |code|;
    var P', m0 := Only(P, m.pc, hi, -1), m.(stk := Empty);
    OnlyLabels(P, m.pc, hi, -1);
    OnlyCode(P, m.pc, hi, -1, code);
    ExprSilent(c, e, tag);
    QuietCode(P, m.pc, code, -1);
    n, r := ExprSettles(P', c, o, e, tag, st, m0);
    RunAlone(P, o, m0, n, n, m.pc, hi, -1);
    NeverBelow(P, o, m, n);
    MirrorsInPlace(P, o, m, n, |code|, m.pc, hi, r);
    forall k | 0 <= k <= n ensures Run(P, o, m, k).mem == m.mem {
      RunAlone(P, o, m0, n, k, m.pc, hi, -1);
      Meanwhile(P, o, m0, n, k);
      assert On(m0, m.stk) == m;
      RunOn(P, o, m0, m.stk, k);
    }
  }

  /** From the isolated run on the empty stack to the run in place. */
  lemma MirrorsInPlace(P: seq<Instr>, o: Env, m: State, n: nat, len: nat, lo: int, hi: int, r: Result)
    requires var P', m0 := Only(P, lo, hi, -1), m.(stk := Empty);
      && Mirrors(P', o, m0, n, len, Empty, m.rsp - 8, r, true, true) && Clean(r)
      && Run(P, o, m, n) == On(Run(P', o, m0, n), m.stk)
    ensures Mirrors(P, o, m, n, len, m.stk, m.rsp - 8, r, true, true)
  {
    hide Step, Run, Only;
    if r.Val? {
      assert Over(Empty, m.stk) == m.stk;
      assert Over(Cons(Enc(o, r.v), Empty), m.stk) == Cons(Enc(o, r.v), m.stk);
    } else {
      FaultsInPlace(P, Run(P, o, m, n), lo, hi, -1, r.k);
    }
  }

  lemma FaultsInPlace(P: seq<Instr>, m: State, lo: int, hi: int, to: int, k: TrapKind)
    requires FaultsAt(Only(P, lo, hi, to), m, k)
    ensures FaultsAt(P, m, k)
  {}

  // ---------- parts of statements by themselves ----------

  /** Data memory holds a word of its type for every global: BOOLEAN words are 0 or all ones, pointers
      are null or the address of a global of exactly their target type. */
  ghost predicate TypedMemory(c: Scope, o: Env, mem: Mem) {
    exists st: Globals :: WellTyped(c, st) && Represents(c, o, st, mem)
  }

  /** So it does after each of the first `n` steps. */
  ghost predicate Throughout(P: seq<Instr>, c: Scope, o: Env, m: State, n: nat) {
    forall k :: 0 <= k <= n ==> TypedMemory(c, o, Run(P, o, m, k).mem)
  }

  /** Some clean outcome is followed, with memory typed all the way. */
  ghost predicate Kept(P: seq<Instr>, c: Scope, o: Env, m: State, n: nat, goal: int, fuel: nat, fr: Frame, r: Outcome) {
    CleanOutcome(r) && Follows(P, c, o, m, n, goal, fuel, fr, r) && Throughout(P, c, o, m, n)
  }

  lemma RepMemory(P: seq<Instr>, c: Scope, o: Env, s: SourceState, m: State, fr: Frame)
    requires Rep(P, c, o, s, m, fr)
    ensures TypedMemory(c, o, m.mem) && WellTyped(c, s.st) && Represents(c, o, s.st, m.mem) && UniqueLabels(P)
  {
    hide WellTyped, Represents;
  }

  lemma ThroughoutPlus(P: seq<Instr>, c: Scope, o: Env, m: State, n1: nat, n2: nat)
    requires Throughout(P, c, o, m, n1) && Throughout(P, c, o, Run(P, o, m, n1), n2)
    ensures Throughout(P, c, o, m, n1 + n2)
  {
    hide Step, Run, TypedMemory;
    forall k | 0 <= k <= n1 + n2 ensures TypedMemory(c, o, Run(P, o, m, k).mem) {
      if k > n1 {
        RunPlus(P, o, m, n1, k - n1);
      }
    }
  }

  lemma OneMore(P: seq<Instr>, c: Scope, o: Env, m: State, n: nat)
    requires Throughout(P, c, o, m, n) && TypedMemory(c, o, Run(P, o, m, n + 1).mem)
    ensures Throughout(P, c, o, m, n + 1)
  {
    hide Step, Run, TypedMemory;
  }

  lemma NoneYet(P: seq<Instr>, c: Scope, o: Env, s: SourceState, m: State, fr: Frame)
    requires Rep(P, c, o, s, m, fr)
    ensures Throughout(P, c, o, m, 0)
  {
    hide TypedMemory, Rep;
    RepMemory(P, c, o, s, m, fr);
    RunNone(P, o, m);
  }

  lemma KeptAfter(P: seq<Instr>, c: Scope, o: Env, m: State, n1: nat, n2: nat, goal: int, fuel1: nat, fuel: nat,
                  fr: Frame, r: Outcome)
    requires Throughout(P, c, o, m, n1) && Kept(P, c, o, Run(P, o, m, n1), n2, goal, fuel1, fr, r) && fuel <= n1 + fuel1
    ensures Kept(P, c, o, m, n1 + n2, goal, fuel, fr, r)
  {
    hide Follows, Throughout;
    Chain(P, c, o, m, n1, n2, goal, fuel1, fuel, fr, r, true);
    FlagTrue(r);
    ThroughoutPlus(P, c, o, m, n1, n2);
  }

  lemma KeptElsewhere(P: seq<Instr>, c: Scope, o: Env, m: State, n: nat, goal: int, goal': int, fuel: nat, fr: Frame,
                      r: Outcome)
    requires Kept(P, c, o, m, n, goal, fuel, fr, r) && !r.Done?
    ensures Kept(P, c, o, m, n, goal', fuel, fr, r)
  {
    hide Throughout, Rep;
  }

  lemma KeptDone(P: seq<Instr>, c: Scope, o: Env, m: State, n: nat, goal: int, fuel: nat, fr: Frame, r: Outcome)
    requires Kept(P, c, o, m, n, goal, fuel, fr, r) && r.Done?
    ensures Run(P, o, m, n).pc == goal && Rep(P, c, o, r.s, Run(P, o, m, n), fr) && Throughout(P, c, o, m, n)
  {
    hide Throughout, Rep;
  }

  lemma KeptHere(P: seq<Instr>, c: Scope, o: Env, m: State, n: nat, fuel: nat, fr: Frame, s: SourceState)
    requires Rep(P, c, o, s, Run(P, o, m, n), fr) && Throughout(P, c, o, m, n)
    ensures Kept(P, c, o, m, n, Run(P, o, m, n).pc, fuel, fr, Done(s, true))
  {
    hide Throughout, Rep;
  }

  lemma KeptNoFuel(P: seq<Instr>, c: Scope, o: Env, m: State, goal: int, fr: Frame, s: SourceState)
    requires Rep(P, c, o, s, m, fr)
    ensures Kept(P, c, o, m, 0, goal, 0, fr, OutOfFuel(s, true))
  {
    hide Throughout, Follows, Rep;
    NoFuelFollows(P, c, o, m, goal, fr, s);
    NoneYet(P, c, o, s, m, fr);
  }

  lemma KeptLabel(P: seq<Instr>, c: Scope, o: Env, m: State, n: nat, goal: int, l: Label, fuel: nat, fr: Frame,
                  r: Outcome)
    returns (n': nat)
    requires Kept(P, c, o, m, n, goal, fuel, fr, r) && 0 <= goal < |P| && P[goal] == Def(l)
    ensures n' >= n && Kept(P, c, o, m, n', goal + 1, fuel, fr, r)
  {
    hide Step, Run, Rep, Follows, Throughout;
    if r.Done? {
      KeptDone(P, c, o, m, n, goal, fuel, fr, r);
      SkipLabel(P, c, o, r.s, Run(P, o, m, n), l, fr);
      n' := StepTo(P, c, o, m, n, r.s, goal + 1, fuel, fr);
      FlagUp(r);
    } else {
      n' := n;
      KeptElsewhere(P, c, o, m, n, goal, goal + 1, fuel, fr, r);
    }
  }

  lemma FlagUp(r: Outcome)
    requires r.Done? && CleanOutcome(r)
    ensures r == Done(r.s, true)
  {}

  lemma StepTo(P: seq<Instr>, c: Scope, o: Env, m: State, n: nat, s: SourceState, goal: int, fuel: nat, fr: Frame)
    returns (n': nat)
    requires Throughout(P, c, o, m, n) && Rep(P, c, o, s, Run(P, o, Run(P, o, m, n), 1), fr)
    requires Run(P, o, Run(P, o, m, n), 1).pc == goal
    ensures n' == n + 1 && Kept(P, c, o, m, n', goal, fuel, fr, Done(s, true))
  {
    hide Step, Run, Rep, Throughout, TypedMemory;
    n' := n + 1;
    RunPlus(P, o, m, n, 1);
    RepMemory(P, c, o, s, Run(P, o, m, n'), fr);
    OneMore(P, c, o, m, n);
    KeptHere(P, c, o, m, n', fuel, fr, s);
  }

  lemma KeptJump(P: seq<Instr>, c: Scope, o: Env, m: State, n: nat, goal: int, l: Label, to: nat, fuel: nat,
                 fr: Frame, r: Outcome)
    returns (n': nat)
    requires Kept(P, c, o, m, n, goal, fuel, fr, r) && 0 <= goal < |P| && P[goal] == Jmp(l) && to < |P|
    requires P[to] == Def(l)
    ensures n' >= n && Kept(P, c, o, m, n', to, fuel, fr, r)
  {
    hide Step, Run, Rep, Follows, Throughout;
    if r.Done? {
      KeptDone(P, c, o, m, n, goal, fuel, fr, r);
      FollowJump(P, c, o, r.s, Run(P, o, m, n), l, to, fr);
      n' := StepTo(P, c, o, m, n, r.s, to, fuel, fr);
      FlagUp(r);
    } else {
      n' := n;
      KeptElsewhere(P, c, o, m, n, goal, to, fuel, fr, r);
    }
  }

  /** The state after an expression as the outcome of the part it belongs to. */
  function Reached(s: SourceState, r: Result): Outcome
    requires Clean(r)
  {
    if r.Trap? then Trapped(r.k, s.(tr := r.tr), true) else Done(s.(tr := r.tr), true)
  }

  lemma RepOnly(P: seq<Instr>, c: Scope, o: Env, s: SourceState, m: State, fr: Frame, lo: int, hi: int, to: int)
    requires Rep(P, c, o, s, m, fr)
    ensures Rep(Only(P, lo, hi, to), c, o, s, m, fr)
  {
    hide Linked, Represents, WellTyped, UniqueLabels, Only;
    OnlyLabels(P, lo, hi, to);
  }

  lemma FollowsAlive(P: seq<Instr>, c: Scope, o: Env, m: State, n: nat, goal: int, fuel: nat, fr: Frame, r: Outcome)
    requires CleanOutcome(r) && Follows(P, c, o, m, n, goal, fuel, fr, r)
    ensures Alive(Run(P, o, m, n)) && (r.Trapped? ==> Run(P, o, m, n).status.Faulted?)
  {
    hide Linked, Represents, WellTyped, UniqueLabels;
  }

  lemma FollowsInPlace(P: seq<Instr>, c: Scope, o: Env, m: State, n: nat, goal: int, fuel: nat, fr: Frame, r: Outcome,
                       lo: int, hi: int, to: int)
    requires CleanOutcome(r) && Follows(Only(P, lo, hi, to), c, o, m, n, goal, fuel, fr, r) && UniqueLabels(P)
    requires Run(P, o, m, n) == Run(Only(P, lo, hi, to), o, m, n)
    ensures Follows(P, c, o, m, n, goal, fuel, fr, r)
    ensures !r.Trapped? ==> TypedMemory(c, o, Run(P, o, m, n).mem)
  {
    hide Step, Run, Linked, Represents, WellTyped, UniqueLabels, Only, FaultsAt;
    if r.Trapped? {
      FaultsInPlace(P, Run(P, o, m, n), lo, hi, to, r.k);
    }
  }

  /** A part that settles in its window settles in place, and memory is typed all the way, because
      only the last step can have written it. */
  lemma OnItsOwn(P: seq<Instr>, c: Scope, o: Env, s: SourceState, m: State, n: nat, goal: int, fuel: nat, fr: Frame,
                 r: Outcome, hi: int, to: int)
    requires Rep(P, c, o, s, m, fr) && Quiet(P, m.pc, hi, to)
    requires CleanOutcome(r) && Follows(Only(P, m.pc, hi, to), c, o, m, n, goal, fuel, fr, r)
    ensures Kept(P, c, o, m, n, goal, fuel, fr, r)
  {
    hide Step, Run, Rep, Follows, Quiet, Only, UniqueLabels, TypedMemory;
    RepMemory(P, c, o, s, m, fr);
    FollowsAlive(Only(P, m.pc, hi, to), c, o, m, n, goal, fuel, fr, r);
    RunAlone(P, o, m, n, n, m.pc, hi, to);
    FollowsInPlace(P, c, o, m, n, goal, fuel, fr, r, m.pc, hi, to);
    forall k | 0 <= k <= n ensures TypedMemory(c, o, Run(P, o, m, k).mem) {
      RunAlone(P, o, m, n, k, m.pc, hi, to);
    }
  }

  lemma PushSettles(P: seq<Instr>, c: Scope, o: Env, e: Expr, tag: nat, s: SourceState, m: State, fr: Frame)
    returns (n: nat, r: Result)
    requires Rep(P, c, o, s, m, fr) && CheckExpr(c, e).Some? && CodeAt(P, m.pc, ExprCode(c, e, tag).code)
    ensures Clean(r) && Sound(c, r, CheckExpr(c, e).value)
    ensures r.Trap? ==> Faults(P, o, m, n, r.k, r.tr)
    ensures r.Val? ==>
      Run(P, o, m, n).pc == m.pc + |ExprCode(c, e, tag).code|
        && Pushed(P, c, o, s.(tr := r.tr), r.v, Run(P, o, m, n), fr)
  {
    hide Step, Run, Start, ExprCode, CheckExpr, Sound;
    n, r := ExprSettles(P, c, o, e, tag, s.st, m);
    if r.Val? {
      StartAfter(P, c, o, s.st, m, Run(P, o, m, n));
    }
  }

  /** Where a test leads. */
  function Taken(r: Result, yes: int, no: int): int {
    if r.Val? && r.v == VBool(false) then no else yes
  }

  lemma CondAlone(P: seq<Instr>, c: Scope, o: Env, e: Expr, tag: nat, l: Label, to: nat, s: SourceState, m: State,
                  fuel: nat, fr: Frame)
    returns (n: nat, r: Result)
    requires Rep(P, c, o, s, m, fr) && CheckExpr(c, e) == Some(TBool)
    requires CodeAt(P, m.pc, ExprCode(c, e, tag).code + Branch(l)) && to < |P| && P[to] == Def(l)
    ensures Clean(r) && (r.Val? ==> r.v.VBool?)
    ensures Follows(P, c, o, m, n, Taken(r, m.pc + |ExprCode(c, e, tag).code| + 3, to), fuel, fr, Reached(s, r))
  {
    hide Step, Run, Rep, Pushed, ExprCode;
    var fe := ExprCode(c, e, tag).code;
    CodeSplit(P, m.pc, fe, Branch(l));
    n, r := PushSettles(P, c, o, e, tag, s, m, fr);
    if r.Val? {
      BranchTaken(P, c, o, l, to, r.v.b, s.(tr := r.tr), Run(P, o, m, n), fr);
      RunPlus(P, o, m, n, 3);
      n := n + 3;
    } else {
      FaultFollows(P, c, o, s, m, n, m.pc + |fe| + 3, fuel, fr, r.k, r.tr, true);
    }
  }

  lemma BranchSilent(l: Label)
    ensures Silent(Branch(l)) && |Branch(l)| == 3
  {}

  /** The condition of an IF or WHILE and its exit test. */
  lemma CondSettles(P: seq<Instr>, c: Scope, o: Env, e: Expr, tag: nat, l: Label, to: nat, s: SourceState, m: State,
                    fuel: nat, fr: Frame)
    returns (n: nat, r: Result)
    requires Rep(P, c, o, s, m, fr) && CheckExpr(c, e) == Some(TBool)
    requires CodeAt(P, m.pc, ExprCode(c, e, tag).code + Branch(l)) && to < |P| && P[to] == Def(l)
    requires to != m.pc + |ExprCode(c, e, tag).code| + 3
    ensures Clean(r) && (r.Val? ==> r.v.VBool?)
    ensures Kept(P, c, o, m, n, Taken(r, m.pc + |ExprCode(c, e, tag).code| + 3, to), fuel, fr, Reached(s, r))
  {
    hide Step, Run, Rep, Follows, CheckExpr, ExprCode, Branch, Quiet, Reached, Clean, Only, CodeAt, Silent;
    var fe := ExprCode(c, e, tag).code;
    BranchSilent(l);
    ExprSilent(c, e, tag);
    SilentPlus(fe, Branch(l));
    QuietCode(P, m.pc, fe + Branch(l), to);
    var hi := m.pc + |fe| + 3;
    RepOnly(P, c, o, s, m, fr, m.pc, hi, to);
    OnlyCode(P, m.pc, hi, to, fe + Branch(l));
    OnlyAt(P, m.pc, hi, to);
    n, r := CondAlone(Only(P, m.pc, hi, to), c, o, e, tag, l, to, s, m, fuel, fr);
    ReachedClean(s, r);
    OnItsOwn(P, c, o, s, m, n, Taken(r, hi, to), fuel, fr, Reached(s, r), hi, to);
  }

  lemma ReachedClean(s: SourceState, r: Result)
    requires Clean(r)
    ensures CleanOutcome(Reached(s, r)) && Reached(s, r).Done? == r.Val? && !Reached(s, r).OutOfFuel?
    ensures Reached(s, r).s == s.(tr := r.tr) && (r.Val? ==> Reached(s, r) == Done(s.(tr := r.tr), true))
  {}

  lemma OnlyAt(P: seq<Instr>, lo: int, hi: int, to: int)
    ensures |Only(P, lo, hi, to)| == |P|
    ensures 0 <= to < |P| ==> Only(P, lo, hi, to)[to] == P[to]
    ensures 0 <= lo < |P| && lo < hi ==> Only(P, lo, hi, to)[lo] == P[lo]
  {}

  lemma AssignToSound(c: Scope, s: SourceState, x: Name, k: nat, v: Value, tr: Trace)
    requires WellTyped(c, s.st) && x in c.vars && Strip(c.vars[x], k).Some?
    ensures CleanOutcome(AssignTo(s, x, k, v, tr, true)) && !AssignTo(s, x, k, v, tr, true).OutOfFuel?
    ensures AssignTo(s, x, k, v, tr, true).Done? ==> AssignTo(s, x, k, v, tr, true).s.leaks == s.leaks
  {
    FollowSound(c, s.st, x, k);
  }

  lemma AssignAlone(P: seq<Instr>, c: Scope, o: Env, x: Name, k: nat, e: Expr, tag: nat, s: SourceState, m: State,
                    fuel: nat, fr: Frame)
    returns (n: nat, r: Outcome)
    requires Rep(P, c, o, s, m, fr) && CheckAssign(c, x, k, e)
    requires CodeAt(P, m.pc, ExprCode(c, e, tag).code + StoreCode(x, k))
    ensures CleanOutcome(r) && !r.OutOfFuel? && (r.Done? ==> r.s.leaks == s.leaks)
    ensures Follows(P, c, o, m, n, m.pc + |ExprCode(c, e, tag).code| + |StoreCode(x, k)|, fuel, fr, r)
  {
    hide Step, Run, Start, Rep, ExprCode, StoreCode, Pushed, WellTyped, Follow, Strip;
    var goal := m.pc + |ExprCode(c, e, tag).code| + |StoreCode(x, k)|;
    CodeSplit(P, m.pc, ExprCode(c, e, tag).code, StoreCode(x, k));
    RepTrace(P, c, o, s, m, fr);
    StartTyped(P, c, o, s.st, m);
    var q;
    n, q := PushSettles(P, c, o, e, tag, s, m, fr);
    if q.Val? {
      var s1 := s.(tr := q.tr);
      var j := StoreRuns(P, c, o, x, k, q.v, s1, Run(P, o, m, n), fr);
      AssignToSound(c, s1, x, k, q.v, q.tr);
      r := AssignTo(s1, x, k, q.v, q.tr, true);
      Chain(P, c, o, m, n, j, goal, 0, 0, fr, r, true);
      FlagTrue(r);
      n := n + j;
      AnyFuel(P, c, o, m, n, goal, 0, fuel, fr, r);
    } else {
      FaultFollows(P, c, o, s, m, n, goal, fuel, fr, q.k, q.tr, true);
      r := Trapped(q.k, s.(tr := q.tr), true);
    }
  }

  lemma AnyFuel(P: seq<Instr>, c: Scope, o: Env, m: State, n: nat, goal: int, fuel: nat, fuel': nat, fr: Frame,
                r: Outcome)
    requires Follows(P, c, o, m, n, goal, fuel, fr, r) && !r.OutOfFuel?
    ensures Follows(P, c, o, m, n, goal, fuel', fr, r)
  {}

  lemma AssignSettles(P: seq<Instr>, c: Scope, o: Env, x: Name, k: nat, e: Expr, tag: nat, s: SourceState, m: State,
                      fuel: nat, fr: Frame)
    returns (n: nat, r: Outcome)
    requires Rep(P, c, o, s, m, fr) && CheckAssign(c, x, k, e)
    requires CodeAt(P, m.pc, ExprCode(c, e, tag).code + StoreCode(x, k))
    ensures !r.OutOfFuel? && (r.Done? ==> r.s.leaks == s.leaks)
    ensures Kept(P, c, o, m, n, m.pc + |ExprCode(c, e, tag).code| + |StoreCode(x, k)|, fuel, fr, r)
  {
    hide Step, Run, Rep, Follows, CheckExpr, ExprCode, StoreCode, Quiet, Only, CodeAt, Silent, CleanOutcome;
    var fe, store := ExprCode(c, e, tag).code, StoreCode(x, k);
    var init, last := StoreSilent(x, k);
    ExprSilent(c, e, tag);
    SilentPlus(fe, init);
    assert fe + store == (fe + init) + [last];
    QuietStore(P, m.pc, fe + init, last);
    var hi := m.pc + |fe| + |store|;
    RepOnly(P, c, o, s, m, fr, m.pc, hi, -1);
    OnlyCode(P, m.pc, hi, -1, fe + store);
    n, r := AssignAlone(Only(P, m.pc, hi, -1), c, o, x, k, e, tag, s, m, fuel, fr);
    OnItsOwn(P, c, o, s, m, n, hi, fuel, fr, r, hi, -1);
  }

  lemma ShowAlone(P: seq<Instr>, c: Scope, o: Env, e: Expr, tag: nat, s: SourceState, m: State, fuel: nat, fr: Frame)
    returns (n: nat, r: Outcome)
    requires Rep(P, c, o, s, m, fr) && CheckStmt(c, Show(e)) && CodeAt(P, m.pc, StmtCode(c, Show(e), tag).code)
    ensures CleanOutcome(r) && Follows(P, c, o, m, n, m.pc + |StmtCode(c, Show(e), tag).code|, fuel, fr, r)
    ensures r.Done? ==> r.s.leaks == s.leaks
  {
    hide Step, Run, Rep, Pushed, ExprCode, DisplayCode, CheckExpr;
    var t := CheckExpr(c, e).value;
    var fe := ExprCode(c, e, tag).code;
    CodeSplit(P, m.pc, fe, DisplayCode(t));
    var q;
    n, q := PushSettles(P, c, o, e, tag, s, m, fr);
    if q.Val? {
      var s1 := s.(tr := q.tr);
      var k := DisplayRuns(P, c, o, t, q.v, s1, Run(P, o, m, n), fr);
      RunPlus(P, o, m, n, k);
      n, r := n + k, Done(s1.(tr := s1.tr + [Printed(FormatFor(q.v), ArgWord(q.v))]), true);
    } else {
      FaultFollows(P, c, o, s, m, n, m.pc + |fe| + |DisplayCode(t)|, fuel, fr, q.k, q.tr, true);
      r := Trapped(q.k, s.(tr := q.tr), true);
    }
  }

  lemma CallAlone(P: seq<Instr>, c: Scope, o: Env, f: Name, args: seq<Expr>, tag: nat, s: SourceState, m: State,
                  fuel: nat, fr: Frame)
    returns (n: nat, r: Outcome)
    requires Rep(P, c, o, s, m, fr) && CheckStmt(c, CallStmt(f, args))
    requires CodeAt(P, m.pc, StmtCode(c, CallStmt(f, args), tag).code)
    ensures CleanOutcome(r) && Follows(P, c, o, m, n, m.pc + |StmtCode(c, CallStmt(f, args), tag).code|, fuel, fr, r)
    ensures r.Done? ==> Depth(r.s.leaks) == Depth(s.leaks) + (if c.funcs[f].ret.Some? then 1 else 0)
  {
    hide Step, Run, Start, ArgsCode, FinishCall, Represents;
    var ret := c.funcs[f].ret;
    var trap, tr;
    n, trap, tr := InvokeSettles(P, c, o, f, args, tag, s.st, m);
    if trap.Some? {
      r := Trapped(trap.value, s.(tr := tr), true);
      FaultFollows(P, c, o, s, m, n, m.pc + |StmtCode(c, CallStmt(f, args), tag).code|, fuel, fr, trap.value, tr, true);
    } else {
      StartAfter(P, c, o, s.st, m, Run(P, o, m, n));
      var s1 := s.(tr := tr);
      r := Done(if ret.None? then s1 else s1.(leaks := Cons(ResultWord(o, tr, ret.value), s.leaks)), true);
    }
  }

  // ---------- statements ----------

  /** What is claimed of a statement: some clean outcome is followed with memory typed all the way, and
      only call statements change what is left on the stack. */
  ghost predicate Settled(P: seq<Instr>, c: Scope, o: Env, t: Stmt, s: SourceState, m: State, n: nat, goal: int,
                          fuel: nat, fr: Frame, r: Outcome)
  {
    Kept(P, c, o, m, n, goal, fuel, fr, r) && (r.Done? && CallsNoStatement(t) ==> r.s.leaks == s.leaks)
  }

  lemma {:induction false} StmtSettles(P: seq<Instr>, c: Scope, o: Env, t: Stmt, tag: nat, s: SourceState, m: State,
                                       fuel: nat, fr: Frame)
    returns (n: nat, r: Outcome)
    requires Rep(P, c, o, s, m, fr) && CheckStmt(c, t) && CodeAt(P, m.pc, StmtCode(c, t, tag).code)
    ensures Settled(P, c, o, t, s, m, n, m.pc + |StmtCode(c, t, tag).code|, fuel, fr, r)
    decreases fuel, t, 2
  {
    hide Step, Run, Rep, Start, ExprCode, CheckExpr, Kept;
    match t
    case Assignment(x, k, e) => n, r := AssignSettles(P, c, o, x, k, e, tag, s, m, fuel, fr);
    case IfElse(_, _, _) => n, r := IfElseSettles(P, c, o, t, tag, s, m, fuel, fr);
    case IfOnly(_, _) => n, r := IfOnlySettles(P, c, o, t, tag, s, m, fuel, fr);
    case Loop(_, _) => n, r := LoopSettles(P, c, o, t, tag, s, m, fuel, fr);
    case ForTo(_, _, _, _, _) => n, r := ForSettles(P, c, o, t, tag, s, m, fuel, fr);
    case Block(ss, _) => n, r := AllSettle(P, c, o, ss, tag, s, m, fuel, fr);
    case Show(e) => n, r := ShowSettles(P, c, o, e, tag, s, m, fuel, fr);
    case CallStmt(f, args) => n, r := CallStmtSettles(P, c, o, f, args, tag, s, m, fuel, fr);
  }

  lemma {:induction false} AllSettle(P: seq<Instr>, c: Scope, o: Env, ss: seq<Stmt>, tag: nat, s: SourceState,
                                     m: State, fuel: nat, fr: Frame)
    returns (n: nat, r: Outcome)
    requires Rep(P, c, o, s, m, fr) && CheckStmts(c, ss) && CodeAt(P, m.pc, StmtsCode(c, ss, tag).code)
    ensures Kept(P, c, o, m, n, m.pc + |StmtsCode(c, ss, tag).code|, fuel, fr, r)
    ensures r.Done? && (forall i :: 0 <= i < |ss| ==> CallsNoStatement(ss[i])) ==> r.s.leaks == s.leaks
    decreases fuel, ss, 1
  {
    hide Step, Run, Rep, StmtCode, CallsNoStatement, Kept, Throughout;
    if ss == [] {
      n, r := 0, Done(s, true);
      RunNone(P, o, m);
      NoneYet(P, c, o, s, m, fr);
      KeptHere(P, c, o, m, 0, fuel, fr, s);
    } else {
      var f := StmtCode(c, ss[0], tag);
      var fs := StmtsCode(c, ss[1..], f.tag);
      CodeSplit(P, m.pc, f.code, fs.code);
      n, r := StmtSettles(P, c, o, ss[0], tag, s, m, fuel, fr);
      var goal := m.pc + |f.code| + |fs.code|;
      if r.Done? {
        KeptDone(P, c, o, m, n, m.pc + |f.code|, fuel, fr, r);
        var k, q := AllSettle(P, c, o, ss[1..], f.tag, r.s, Run(P, o, m, n), fuel, fr);
        KeptAfter(P, c, o, m, n, k, goal, fuel, fuel, fr, q);
        n, r := n + k, q;
      } else {
        KeptElsewhere(P, c, o, m, n, m.pc + |f.code|, goal, fuel, fr, r);
      }
    }
  }

  lemma ShowSettles(P: seq<Instr>, c: Scope, o: Env, e: Expr, tag: nat, s: SourceState, m: State, fuel: nat, fr: Frame)
    returns (n: nat, r: Outcome)
    requires Rep(P, c, o, s, m, fr) && CheckStmt(c, Show(e)) && CodeAt(P, m.pc, StmtCode(c, Show(e), tag).code)
    ensures Settled(P, c, o, Show(e), s, m, n, m.pc + |StmtCode(c, Show(e), tag).code|, fuel, fr, r)
  {
    hide Step, Run, Rep, Follows, CheckExpr, ExprCode, DisplayCode, Quiet, Only, CodeAt, Silent, CleanOutcome;
    var code := StmtCode(c, Show(e), tag).code;
    var hi := m.pc + |code|;
    ExprSilent(c, e, tag);
    DisplaySilent(TyOf(c, e));
    SilentPlus(ExprCode(c, e, tag).code, DisplayCode(TyOf(c, e)));
    PcStart(P, m.pc, code);
    QuietCode(P, m.pc, code, -1);
    RepOnly(P, c, o, s, m, fr, m.pc, hi, -1);
    OnlyCode(P, m.pc, hi, -1, code);
    n, r := ShowAlone(Only(P, m.pc, hi, -1), c, o, e, tag, s, m, fuel, fr);
    OnItsOwn(P, c, o, s, m, n, hi, fuel, fr, r, hi, -1);
  }

  lemma PcStart(P: seq<Instr>, pc: int, code: seq<Instr>)
    requires CodeAt(P, pc, code)
    ensures 0 <= pc && pc + |code| <= |P|
  {}

  lemma CallStmtSettles(P: seq<Instr>, c: Scope, o: Env, f: Name, args: seq<Expr>, tag: nat, s: SourceState, m: State,
                        fuel: nat, fr: Frame)
    returns (n: nat, r: Outcome)
    requires Rep(P, c, o, s, m, fr) && CheckStmt(c, CallStmt(f, args))
    requires CodeAt(P, m.pc, StmtCode(c, CallStmt(f, args), tag).code)
    ensures Settled(P, c, o, CallStmt(f, args), s, m, n, m.pc + |StmtCode(c, CallStmt(f, args), tag).code|, fuel, fr, r)
    ensures r.Done? ==> Depth(r.s.leaks) == Depth(s.leaks) + (if c.funcs[f].ret.Some? then 1 else 0)
  {
    hide Step, Run, Rep, Follows, CheckArgs, ArgsCode, FinishCall, Quiet, Only, CodeAt, Silent, CleanOutcome, Depth;
    var code := StmtCode(c, CallStmt(f, args), tag).code;
    var hi := m.pc + |code|;
    ArgsSilent(c, args, tag, 0, 0);
    CallSilent(c, f);
    SilentPlus(ArgsCode(c, args, tag, 0, 0).code, if f in c.funcs then FinishCall(f, c.funcs[f].ret) else []);
    PcStart(P, m.pc, code);
    QuietCode(P, m.pc, code, -1);
    RepOnly(P, c, o, s, m, fr, m.pc, hi, -1);
    OnlyCode(P, m.pc, hi, -1, code);
    n, r := CallAlone(Only(P, m.pc, hi, -1), c, o, f, args, tag, s, m, fuel, fr);
    OnItsOwn(P, c, o, s, m, n, hi, fuel, fr, r, hi, -1);
  }

  /** A label and the statement behind it. */
  lemma {:induction false} BodySettles(P: seq<Instr>, c: Scope, o: Env, t: Stmt, tag: nat, l: Label, s: SourceState,
                                       m: State, n: nat, fuel: nat, fr: Frame) returns (n': nat, r: Outcome)
    requires Throughout(P, c, o, m, n)
    requires var m1 := Run(P, o, m, n);
      && Rep(P, c, o, s, m1, fr) && CheckStmt(c, t) && 0 <= m1.pc < |P| && P[m1.pc] == Def(l)
      && CodeAt(P, m1.pc + 1, StmtCode(c, t, tag).code)
    ensures Settled(P, c, o, t, s, m, n', Run(P, o, m, n).pc + 1 + |StmtCode(c, t, tag).code|, fuel, fr, r)
    decreases fuel, t, 3
  {
    hide Step, Run, Rep, StmtCode, Follows, CallsNoStatement, Throughout, CodeAt, Kept;
    var m1 := Run(P, o, m, n);
    SkipLabel(P, c, o, s, m1, l, fr);
    var n1 := StepTo(P, c, o, m, n, s, m1.pc + 1, fuel, fr);
    KeptDone(P, c, o, m, n1, m1.pc + 1, fuel, fr, Done(s, true));
    var k;
    k, r := StmtSettles(P, c, o, t, tag, s, Run(P, o, m, n1), fuel, fr);
    KeptAfter(P, c, o, m, n1, k, m1.pc + 1 + |StmtCode(c, t, tag).code|, fuel, fuel, fr, r);
    n' := n1 + k;
  }

  lemma {:induction false} IfOnlySettles(P: seq<Instr>, c: Scope, o: Env, t: Stmt, tag: nat, s: SourceState, m: State,
                                         fuel: nat, fr: Frame)
    returns (n: nat, r: Outcome)
    requires t.IfOnly?
    requires Rep(P, c, o, s, m, fr) && CheckStmt(c, t) && CodeAt(P, m.pc, StmtCode(c, t, tag).code)
    ensures Settled(P, c, o, t, s, m, n, m.pc + |StmtCode(c, t, tag).code|, fuel, fr, r)
    decreases fuel, t, 1
  {
    hide Step, Run, Rep, ExprCode, CheckExpr, Kept, StmtCode, CodeAt, Branch, Throughout, Reached;
    var g := tag + 1;
    var fe := ExprCode(c, t.c, g);
    var ft := StmtCode(c, t.thn, fe.tag);
    IfOnlyParts(P, c, t, tag, m.pc);
    var p0 := m.pc + |fe.code| + 3;
    var p1 := p0 + 1 + |ft.code|;
    var q;
    n, q := CondSettles(P, c, o, t.c, g, LFalse(g), p1, s, m, fuel, fr);
    ReachedClean(s, q);
    r := Reached(s, q);
    if q.Trap? {
      KeptElsewhere(P, c, o, m, n, p0, p1 + 2, fuel, fr, r);
    } else {
      KeptDone(P, c, o, m, n, Taken(q, p0, p1), fuel, fr, r);
      if q.v.b {
        n, r := BodySettles(P, c, o, t.thn, fe.tag, LTrue(g), r.s, m, n, fuel, fr);
      }
      n := KeptLabel(P, c, o, m, n, p1, LFalse(g), fuel, fr, r);
      n := KeptLabel(P, c, o, m, n, p1 + 1, LNext(g), fuel, fr, r);
    }
  }

  lemma {:induction false} IfElseSettles(P: seq<Instr>, c: Scope, o: Env, t: Stmt, tag: nat, s: SourceState, m: State,
                                         fuel: nat, fr: Frame)
    returns (n: nat, r: Outcome)
    requires t.IfElse?
    requires Rep(P, c, o, s, m, fr) && CheckStmt(c, t) && CodeAt(P, m.pc, StmtCode(c, t, tag).code)
    ensures Settled(P, c, o, t, s, m, n, m.pc + |StmtCode(c, t, tag).code|, fuel, fr, r)
    decreases fuel, t, 1
  {
    hide Step, Run, Rep, ExprCode, CheckExpr, Kept, StmtCode, CodeAt, Branch, Throughout, Reached;
    var g := tag + 1;
    var fe := ExprCode(c, t.c, g);
    var ft := StmtCode(c, t.thn, fe.tag);
    var ff := StmtCode(c, t.els, ft.tag);
    IfElseParts(P, c, t, tag, m.pc);
    var p0 := m.pc + |fe.code| + 3;
    var p1 := p0 + 1 + |ft.code|;
    var p2 := p1 + 2 + |ff.code|;
    var q;
    n, q := CondSettles(P, c, o, t.c, g, LFalse(g), p1 + 1, s, m, fuel, fr);
    ReachedClean(s, q);
    r := Reached(s, q);
    if q.Trap? {
      KeptElsewhere(P, c, o, m, n, p0, p2 + 1, fuel, fr, r);
    } else {
      KeptDone(P, c, o, m, n, Taken(q, p0, p1 + 1), fuel, fr, r);
      if q.v.b {
        n, r := BodySettles(P, c, o, t.thn, fe.tag, LTrue(g), r.s, m, n, fuel, fr);
        n := KeptJump(P, c, o, m, n, p1, LNext(g), p2, fuel, fr, r);
      } else {
        n, r := BodySettles(P, c, o, t.els, ft.tag, LFalse(g), r.s, m, n, fuel, fr);
      }
      n := KeptLabel(P, c, o, m, n, p2, LNext(g), fuel, fr, r);
    }
  }

  lemma {:induction false} LoopSettles(P: seq<Instr>, c: Scope, o: Env, t: Stmt, tag: nat, s: SourceState, m: State,
                                       fuel: nat, fr: Frame)
    returns (n: nat, r: Outcome)
    requires t.Loop?
    requires Rep(P, c, o, s, m, fr) && CheckStmt(c, t) && CodeAt(P, m.pc, StmtCode(c, t, tag).code)
    ensures Settled(P, c, o, t, s, m, n, m.pc + |StmtCode(c, t, tag).code|, fuel, fr, r)
    decreases fuel, t, 1
  {
    hide Step, Run, Rep, ExprCode, CheckExpr, Kept, StmtCode, CodeAt, Branch, Throughout, Reached;
    var g := tag + 1;
    var fe := ExprCode(c, t.c, g);
    var fb := StmtCode(c, t.body, fe.tag);
    LoopParts(P, c, t, tag, m.pc);
    var p1 := m.pc + |fe.code| + 4;
    var p2 := p1 + |fb.code|;
    if fuel == 0 {
      n, r := 0, OutOfFuel(s, true);
      KeptNoFuel(P, c, o, m, p2 + 2, fr, s);
    } else {
      var q;
      n, q := TestSettles(P, c, o, t, tag, s, m, fuel, fr);
      ReachedClean(s, q);
      r := Reached(s, q);
      if q.Trap? {
        KeptElsewhere(P, c, o, m, n, p1, p2 + 2, fuel, fr, r);
      } else if q.v.b {
        KeptDone(P, c, o, m, n, p1, fuel, fr, r);
        n, r := AgainSettles(P, c, o, t, tag, r.s, m, n, fuel, fr);
      } else {
        n := KeptLabel(P, c, o, m, n, p2 + 1, LNext(g), fuel, fr, r);
      }
    }
  }

  /** The label and the test of a WHILE. */
  lemma TestSettles(P: seq<Instr>, c: Scope, o: Env, t: Stmt, tag: nat, s: SourceState, m: State, fuel: nat, fr: Frame)
    returns (n: nat, r: Result)
    requires t.Loop?
    requires Rep(P, c, o, s, m, fr) && CheckStmt(c, t) && CodeAt(P, m.pc, StmtCode(c, t, tag).code)
    ensures n > 0 && Clean(r) && (r.Val? ==> r.v.VBool?)
    ensures var p1 := m.pc + |ExprCode(c, t.c, tag + 1).code| + 4;
      Kept(P, c, o, m, n, Taken(r, p1, m.pc + |StmtCode(c, t, tag).code| - 1), fuel, fr, Reached(s, r))
  {
    hide Step, Run, Rep, ExprCode, CheckExpr, Kept, StmtCode, CodeAt, Branch, Throughout, Reached;
    var g := tag + 1;
    LoopParts(P, c, t, tag, m.pc);
    var p1 := m.pc + |ExprCode(c, t.c, g).code| + 4;
    var out := m.pc + |StmtCode(c, t, tag).code| - 1;
    NoneYet(P, c, o, s, m, fr);
    RunNone(P, o, m);
    SkipLabel(P, c, o, s, m, LWhile(g), fr);
    var n1 := StepTo(P, c, o, m, 0, s, m.pc + 1, fuel, fr);
    KeptDone(P, c, o, m, n1, m.pc + 1, fuel, fr, Done(s, true));
    var k;
    k, r := CondSettles(P, c, o, t.c, g, LNext(g), out, s, Run(P, o, m, n1), fuel, fr);
    KeptAfter(P, c, o, m, n1, k, Taken(r, p1, out), fuel, fuel, fr, Reached(s, r));
    n := n1 + k;
  }

  /** The body of a WHILE and the rounds after it. */
  lemma {:induction false} AgainSettles(P: seq<Instr>, c: Scope, o: Env, t: Stmt, tag: nat, s: SourceState, m: State,
                                        n: nat, fuel: nat, fr: Frame)
    returns (n': nat, r: Outcome)
    requires t.Loop? && fuel > 0 && n > 0 && Throughout(P, c, o, m, n)
    requires CheckStmt(c, t) && CodeAt(P, m.pc, StmtCode(c, t, tag).code)
    requires Rep(P, c, o, s, Run(P, o, m, n), fr)
    requires Run(P, o, m, n).pc == m.pc + 4 + |ExprCode(c, t.c, tag + 1).code|
    ensures Settled(P, c, o, t, s, m, n', m.pc + |StmtCode(c, t, tag).code|, fuel, fr, r)
    decreases fuel, t.body, 4
  {
    hide Step, Run, Rep, ExprCode, CheckExpr, Kept, StmtCode, CodeAt, Throughout;
    var g := tag + 1;
    var fe := ExprCode(c, t.c, g);
    var fb := StmtCode(c, t.body, fe.tag);
    LoopParts(P, c, t, tag, m.pc);
    var p2 := m.pc + |fe.code| + 4 + |fb.code|;
    var k;
    k, r := StmtSettles(P, c, o, t.body, fe.tag, s, Run(P, o, m, n), fuel, fr);
    KeptAfter(P, c, o, m, n, k, p2, fuel, fuel, fr, r);
    n' := KeptJump(P, c, o, m, n + k, p2, LWhile(g), m.pc, fuel, fr, r);
    var goal := m.pc + |StmtCode(c, t, tag).code|;
    if r.Done? {
      KeptDone(P, c, o, m, n', m.pc, fuel, fr, r);
      var j, q := LoopSettles(P, c, o, t, tag, r.s, Run(P, o, m, n'), fuel - 1, fr);
      KeptAfter(P, c, o, m, n', j, goal, fuel - 1, fuel, fr, q);
      n', r := n' + j, q;
    } else {
      KeptElsewhere(P, c, o, m, n', m.pc, goal, fuel, fr, r);
    }
  }

  lemma {:induction false} ForSettles(P: seq<Instr>, c: Scope, o: Env, t: Stmt, tag: nat, s: SourceState, m: State,
                                      fuel: nat, fr: Frame)
    returns (n: nat, r: Outcome)
    requires t.ForTo?
    requires Rep(P, c, o, s, m, fr) && CheckStmt(c, t) && CodeAt(P, m.pc, StmtCode(c, t, tag).code)
    ensures Settled(P, c, o, t, s, m, n, m.pc + |StmtCode(c, t, tag).code|, fuel, fr, r)
    decreases fuel, t, 1
  {
    hide Step, Run, Rep, ExprCode, CheckExpr, Kept, StmtCode, StoreCode, CodeAt, ForAt, ForLength, Throughout;
    var f0 := ExprCode(c, t.from, tag);
    var g := f0.tag + 1;
    ForParts(P, c, t, tag, m.pc);
    var pc := m.pc + |f0.code| + |StoreCode(t.x, t.carets)|;
    var goal := pc + ForLength(c, t.to, t.body, g);
    n, r := AssignSettles(P, c, o, t.x, t.carets, t.from, tag, s, m, fuel, fr);
    if r.Done? {
      KeptDone(P, c, o, m, n, pc, fuel, fr, r);
      var k, q := RoundsSettle(P, c, o, t.x, t.to, t.body, g, r.s, Run(P, o, m, n), fuel, fr);
      KeptAfter(P, c, o, m, n, k, goal, fuel, fuel, fr, q);
      n, r := n + k, q;
    } else {
      KeptElsewhere(P, c, o, m, n, pc, goal, fuel, fr, r);
    }
  }

  function ForTest(x: Name, l: Label): seq<Instr> {
    [PopReg(RAX), CmpVar(x), Jcc(L, l)]
  }

  /** The bound and the exit test of a FOR, which may go either way. */
  lemma BoundAlone(P: seq<Instr>, c: Scope, o: Env, x: Name, to: Expr, g: nat, l: Label, out: nat, s: SourceState,
                   m: State, fuel: nat, fr: Frame) returns (n: nat, r: Result, exit: bool)
    requires Rep(P, c, o, s, m, fr) && CodeAt(P, m.pc, ExprCode(c, to, g).code + ForTest(x, l))
    requires x in c.vars && c.vars[x].TInt? && CheckExpr(c, to) == Some(TInt) && out < |P| && P[out] == Def(l)
    ensures Clean(r)
    ensures Follows(P, c, o, m, n, if exit then out else m.pc + |ExprCode(c, to, g).code| + 3, fuel, fr, Reached(s, r))
  {
    hide Step, Run, Rep, ExprCode, Pushed, Follows, CheckExpr;
    RepTyped(P, c, o, s, m, fr, x);
    CodeSplit(P, m.pc, ExprCode(c, to, g).code, ForTest(x, l));
    n, r := PushSettles(P, c, o, to, g, s, m, fr);
    exit := false;
    if r.Val? {
      ForTestRuns(P, c, o, x, l, out, r.v.w, s.(tr := r.tr), Run(P, o, m, n), fr);
      exit := Signed(r.v.w) < Signed(s.st[x].w);
      RunPlus(P, o, m, n, 3);
      n := n + 3;
      DoneFollows(P, c, o, m, n, fuel, fr, s.(tr := r.tr));
    } else {
      FaultFollows(P, c, o, s, m, n, m.pc + |ExprCode(c, to, g).code| + 3, fuel, fr, r.k, r.tr, true);
    }
  }

  lemma BoundSettles(P: seq<Instr>, c: Scope, o: Env, x: Name, to: Expr, g: nat, l: Label, out: nat, s: SourceState,
                     m: State, fuel: nat, fr: Frame) returns (n: nat, r: Result, exit: bool)
    requires Rep(P, c, o, s, m, fr) && CodeAt(P, m.pc, ExprCode(c, to, g).code + ForTest(x, l))
    requires x in c.vars && c.vars[x].TInt? && CheckExpr(c, to) == Some(TInt) && out < |P| && P[out] == Def(l)
    requires out != m.pc + |ExprCode(c, to, g).code| + 3
    ensures Clean(r)
    ensures Kept(P, c, o, m, n, if exit then out else m.pc + |ExprCode(c, to, g).code| + 3, fuel, fr, Reached(s, r))
  {
    hide Step, Run, Rep, Follows, CheckExpr, ExprCode, ForTest, Quiet, Reached, Clean, Only, CodeAt, Silent;
    var fe := ExprCode(c, to, g).code;
    TestSilent(x, l);
    ExprSilent(c, to, g);
    SilentPlus(fe, ForTest(x, l));
    QuietCode(P, m.pc, fe + ForTest(x, l), out);
    var hi := m.pc + |fe| + 3;
    RepOnly(P, c, o, s, m, fr, m.pc, hi, out);
    OnlyCode(P, m.pc, hi, out, fe + ForTest(x, l));
    OnlyAt(P, m.pc, hi, out);
    n, r, exit := BoundAlone(Only(P, m.pc, hi, out), c, o, x, to, g, l, out, s, m, fuel, fr);
    ReachedClean(s, r);
    OnItsOwn(P, c, o, s, m, n, if exit then out else hi, fuel, fr, Reached(s, r), hi, out);
  }

  lemma TestSilent(x: Name, l: Label)
    ensures Silent(ForTest(x, l)) && |ForTest(x, l)| == 3
  {}

  lemma BoundAt(P: seq<Instr>, c: Scope, x: Name, to: Expr, b: Stmt, g: nat, pc: int)
    requires ForAt(P, c, x, to, b, g, pc)
    ensures var out := pc + ForLength(c, to, b, g) - 1;
      && 0 <= pc && out < |P| && P[pc] == Def(LFor(g)) && P[out] == Def(LNext(g))
      && pc + |ExprCode(c, to, g).code| + 4 <= out - 2 && P[out - 2] == IncVar(x) && P[out - 1] == Jmp(LFor(g))
      && CodeAt(P, pc + 1, ExprCode(c, to, g).code + ForTest(x, LNext(g)))
      && CodeAt(P, pc + 4 + |ExprCode(c, to, g).code|, StmtCode(c, b, ExprCode(c, to, g).tag).code)
      && out - 2 == pc + 4 + |ExprCode(c, to, g).code| + |StmtCode(c, b, ExprCode(c, to, g).tag).code|
  {
    hide ExprCode, StmtCode;
    var f1, test := ExprCode(c, to, g).code, ForTest(x, LNext(g));
    forall i | 0 <= i < |f1 + test| ensures P[pc + 1 + i] == (f1 + test)[i] {
      if i < |f1| {
        assert P[pc + 1 + i] == f1[i];
      } else {
        assert P[pc + 1 + |f1| + (i - |f1|)] == test[i - |f1|];
      }
    }
  }

  /** The loop label, the bound and the exit test. */
  lemma HeadSettles(P: seq<Instr>, c: Scope, o: Env, x: Name, to: Expr, b: Stmt, g: nat, s: SourceState, m: State,
                    fuel: nat, fr: Frame)
    returns (n: nat, r: Result, exit: bool)
    requires Rep(P, c, o, s, m, fr) && ForAt(P, c, x, to, b, g, m.pc)
    requires x in c.vars && c.vars[x].TInt? && CheckExpr(c, to) == Some(TInt)
    ensures n > 0 && Clean(r)
    ensures var p1, out := m.pc + 4 + |ExprCode(c, to, g).code|, m.pc + ForLength(c, to, b, g) - 1;
      Kept(P, c, o, m, n, if exit then out else p1, fuel, fr, Reached(s, r))
  {
    hide Step, Run, Rep, ExprCode, StmtCode, Kept, CheckExpr, CodeAt, ForAt, ForTest, ForLength, Throughout, Reached,
      Clean;
    BoundAt(P, c, x, to, b, g, m.pc);
    NoneYet(P, c, o, s, m, fr);
    RunNone(P, o, m);
    SkipLabel(P, c, o, s, m, LFor(g), fr);
    var n1 := StepTo(P, c, o, m, 0, s, m.pc + 1, fuel, fr);
    KeptDone(P, c, o, m, n1, m.pc + 1, fuel, fr, Done(s, true));
    var out := m.pc + ForLength(c, to, b, g) - 1;
    var k;
    k, r, exit := BoundSettles(P, c, o, x, to, g, LNext(g), out, s, Run(P, o, m, n1), fuel, fr);
    KeptAfter(P, c, o, m, n1, k, if exit then out else m.pc + 4 + |ExprCode(c, to, g).code|, fuel, fuel, fr,
              Reached(s, r));
    n := n1 + k;
  }

  lemma {:induction false} RoundsSettle(P: seq<Instr>, c: Scope, o: Env, x: Name, to: Expr, b: Stmt, g: nat,
                                        s: SourceState, m: State, fuel: nat, fr: Frame) returns (n: nat, r: Outcome)
    requires Rep(P, c, o, s, m, fr) && ForAt(P, c, x, to, b, g, m.pc)
    requires x in c.vars && c.vars[x].TInt? && CheckExpr(c, to) == Some(TInt) && CheckStmt(c, b)
    ensures Settled(P, c, o, b, s, m, n, m.pc + ForLength(c, to, b, g), fuel, fr, r)
    decreases fuel, b, 6
  {
    hide Step, Run, Rep, ExprCode, StmtCode, CheckStmt, CheckExpr, Kept, ForAt, ForLength, ForTest, CallsNoStatement,
      Throughout, CodeAt, Reached;
    var goal := m.pc + ForLength(c, to, b, g);
    if fuel == 0 {
      n, r := 0, OutOfFuel(s, true);
      KeptNoFuel(P, c, o, m, goal, fr, s);
    } else {
      BoundAt(P, c, x, to, b, g, m.pc);
      var q, exit;
      n, q, exit := HeadSettles(P, c, o, x, to, b, g, s, m, fuel, fr);
      ReachedClean(s, q);
      r := Reached(s, q);
      var p1 := m.pc + 4 + |ExprCode(c, to, g).code|;
      if q.Trap? {
        KeptElsewhere(P, c, o, m, n, if exit then goal - 1 else p1, goal, fuel, fr, r);
      } else if exit {
        n := KeptLabel(P, c, o, m, n, goal - 1, LNext(g), fuel, fr, r);
      } else {
        KeptDone(P, c, o, m, n, p1, fuel, fr, r);
        n, r := RoundSettles(P, c, o, x, to, b, g, r.s, m, n, fuel, fr);
      }
    }
  }

  lemma {:induction false} RoundSettles(P: seq<Instr>, c: Scope, o: Env, x: Name, to: Expr, b: Stmt, g: nat,
                                        s: SourceState, m: State, n: nat, fuel: nat, fr: Frame)
    returns (n': nat, r: Outcome)
    requires ForAt(P, c, x, to, b, g, m.pc) && n > 0 && fuel > 0 && Throughout(P, c, o, m, n)
    requires Rep(P, c, o, s, Run(P, o, m, n), fr) && Run(P, o, m, n).pc == m.pc + 4 + |ExprCode(c, to, g).code|
    requires x in c.vars && c.vars[x].TInt? && CheckExpr(c, to) == Some(TInt) && CheckStmt(c, b)
    ensures Settled(P, c, o, b, s, m, n', m.pc + ForLength(c, to, b, g), fuel, fr, r)
    decreases fuel, b, 5
  {
    hide Step, Run, Rep, ExprCode, StmtCode, CheckStmt, CheckExpr, Kept, CallsNoStatement, ForAt, ForLength, ForTest,
      Throughout, CodeAt;
    BoundAt(P, c, x, to, b, g, m.pc);
    var tag := ExprCode(c, to, g).tag;
    var goal := m.pc + ForLength(c, to, b, g);
    var p2 := goal - 3;
    var k;
    k, r := StmtSettles(P, c, o, b, tag, s, Run(P, o, m, n), fuel, fr);
    KeptAfter(P, c, o, m, n, k, p2, fuel, fuel, fr, r);
    n' := n + k;
    if r.Done? {
      KeptDone(P, c, o, m, n', p2, fuel, fr, r);
      var s2 := BumpSettles(P, c, o, x, g, r.s, m, n', m.pc, p2, fr);
      var j, q := RoundsSettle(P, c, o, x, to, b, g, s2, Run(P, o, m, n' + 2), fuel - 1, fr);
      KeptAfter(P, c, o, m, n' + 2, j, goal, fuel - 1, fuel, fr, q);
      n', r := n' + 2 + j, q;
    } else {
      KeptElsewhere(P, c, o, m, n', p2, goal, fuel, fr, r);
    }
  }

  /** The increment at the end of a round and the jump back. */
  lemma BumpSettles(P: seq<Instr>, c: Scope, o: Env, x: Name, g: nat, s: SourceState, m: State, n: nat, pc: int,
                    p2: int, fr: Frame)
    returns (s2: SourceState)
    requires Throughout(P, c, o, m, n)
    requires Rep(P, c, o, s, Run(P, o, m, n), fr) && Run(P, o, m, n).pc == p2 && x in c.vars && c.vars[x].TInt?
    requires 0 <= p2 && p2 + 1 < |P| && P[p2] == IncVar(x) && P[p2 + 1] == Jmp(LFor(g)) && 0 <= pc < |P|
    requires P[pc] == Def(LFor(g))
    ensures s2.leaks == s.leaks && Throughout(P, c, o, m, n + 2)
    ensures Run(P, o, m, n + 2).pc == pc && Rep(P, c, o, s2, Run(P, o, m, n + 2), fr)
  {
    hide Step, Run, Rep, Throughout, TypedMemory;
    IncVarRuns(P, c, o, x, s, Run(P, o, m, n), fr);
    RunPlus(P, o, m, n, 1);
    s2 := BumpBack(P, c, o, x, g, s, m, n, pc, p2, fr);
    RepMemory(P, c, o, s2, Run(P, o, m, n + 1), fr);
    OneMore(P, c, o, m, n);
    RepMemory(P, c, o, s2, Run(P, o, m, n + 2), fr);
    OneMore(P, c, o, m, n + 1);
  }

  /** The outcome with more leaked words below its own. */
  function WithLeaks(r: Outcome, leaks: Stack): Outcome {
    match r
    case Done(s, ok) => Done(s.(leaks := Over(s.leaks, leaks)), ok)
    case Trapped(k, s, ok) => Trapped(k, s.(leaks := Over(s.leaks, leaks)), ok)
    case OutOfFuel(s, ok) => OutOfFuel(s.(leaks := Over(s.leaks, leaks)), ok)
    case Stray => Stray
  }

  lemma RepBare(P: seq<Instr>, c: Scope, o: Env, s: SourceState, m: State, fr: Frame)
    requires Rep(P, c, o, s, m, fr)
    ensures Rep(P, c, o, s.(leaks := Empty), m.(stk := Empty), Frame(Empty, m.rsp, fr.rbp, fr.fpu))
    ensures m.stk == Over(s.leaks, fr.base) && m.rsp == fr.rsp - 8 * Depth(s.leaks)
  {
    hide Linked, Represents, WellTyped, UniqueLabels;
  }

  lemma RepOn(P: seq<Instr>, c: Scope, o: Env, s: SourceState, m: State, fr: Frame, leaks: Stack, base: Stack, rsp: int)
    requires Rep(P, c, o, s, m, Frame(Empty, rsp - 8 * Depth(leaks), fr.rbp, fr.fpu)) && fr.base == base
    requires fr.rsp == rsp
    ensures Rep(P, c, o, s.(leaks := Over(s.leaks, leaks)), On(m, Over(leaks, base)), fr)
  {
    hide Linked, Represents, WellTyped, UniqueLabels;
    OverOver(s.leaks, leaks, base);
  }

  lemma FollowsOn(P: seq<Instr>, c: Scope, o: Env, s: SourceState, m: State, n: nat, goal: int, fuel: nat, fr: Frame,
                  r: Outcome)
    requires Rep(P, c, o, s, m, fr) && CleanOutcome(r)
    requires Follows(P, c, o, m.(stk := Empty), n, goal, fuel, Frame(Empty, m.rsp, fr.rbp, fr.fpu), r)
    requires Run(P, o, m, n) == On(Run(P, o, m.(stk := Empty), n), m.stk)
    ensures Follows(P, c, o, m, n, goal, fuel, fr, WithLeaks(r, s.leaks)) && CleanOutcome(WithLeaks(r, s.leaks))
  {
    hide Step, Run, Rep, Represents;
    RepBare(P, c, o, s, m, fr);
    var m' := Run(P, o, m.(stk := Empty), n);
    if r.Done? || r.OutOfFuel? {
      RepOn(P, c, o, r.s, m', fr, s.leaks, fr.base, fr.rsp);
    }
  }

  /** Every statement, from every represented state, in any amount of fuel: some clean outcome is
      followed; at every step memory is typed and the stack is some words over what it was before,
      so nothing that was there is ever popped; and what was leaked before is still below. */
  lemma StmtKeepsStack(P: seq<Instr>, c: Scope, o: Env, t: Stmt, tag: nat, s: SourceState, m: State, fuel: nat,
                       fr: Frame)
    returns (n: nat, r: Outcome)
    requires Rep(P, c, o, s, m, fr) && CheckStmt(c, t) && CodeAt(P, m.pc, StmtCode(c, t, tag).code)
    ensures Settled(P, c, o, t, s, m, n, m.pc + |StmtCode(c, t, tag).code|, fuel, fr, r)
    ensures r.Done? ==> StandsOn(r.s.leaks, s.leaks)
    ensures forall k :: 0 <= k <= n ==> StandsOn(Run(P, o, m, k).stk, Over(s.leaks, fr.base))
  {
    hide Step, Run, Rep, Follows, StmtCode, CheckStmt, TypedMemory, CallsNoStatement, StandsOn;
    var m0, fr0 := m.(stk := Empty), Frame(Empty, m.rsp, fr.rbp, fr.fpu);
    var goal := m.pc + |StmtCode(c, t, tag).code|;
    RepBare(P, c, o, s, m, fr);
    var r0;
    n, r0 := StmtSettles(P, c, o, t, tag, s.(leaks := Empty), m0, fuel, fr0);
    FollowsAlive(P, c, o, m0, n, goal, fuel, fr0, r0);
    NeverBelow(P, o, m, n);
    FollowsOn(P, c, o, s, m, n, goal, fuel, fr, r0);
    r := WithLeaks(r0, s.leaks);
    LeaksStand(r0, s.leaks);
    forall k | 0 <= k <= n ensures TypedMemory(c, o, Run(P, o, m, k).mem) {
      Meanwhile(P, o, m0, n, k);
      assert On(m0, m.stk) == m;
      RunOn(P, o, m0, m.stk, k);
    }
  }

  lemma LeaksStand(r: Outcome, leaks: Stack)
    ensures r.Done? ==> StandsOn(WithLeaks(r, leaks).s.leaks, leaks)
    ensures r.Done? && r.s.leaks == Empty ==> WithLeaks(r, leaks).s.leaks == leaks
    ensures WithLeaks(r, leaks).Done? == r.Done?
  {}

  // ---------- whole programs ----------

  /** The ends a compiled program can come to: back to the caller with the caller's stack, and %rbp
      where %rsp was, or one of the two faults at an instruction that divides by zero or goes through null. */
  ghost predicate ProperEnd(P: seq<Instr>, m: State, ret: Word, caller: Stack, m': State) {
    match m'.status
    case Returned(to) => to == ret && m'.stk == caller && m'.rsp == m.rsp + 8 && m'.rbp == m.rsp
    case Faulted(_) => FaultsAt(P, m', DivisionByZero) || FaultsAt(P, m', NullDereference)
    case _ => false
  }

  /** What holds at every moment: memory is typed, and until the procedure returns its return address
      and its caller's words are below whatever is on the stack. */
  ghost predicate Sane(c: Scope, o: Env, m: State, m': State) {
    TypedMemory(c, o, m'.mem) && (m'.status.Returned? || StandsOn(m'.stk, m.stk))
  }

  lemma EntrySane(c: Scope, o: Env, m: State, ret: Word, caller: Stack)
    requires Entry(c, o, m, ret, caller)
    ensures Sane(c, o, m, m) && m.stk == Cons(ret, caller)
  {
    hide Represents, WellTyped;
    InitialTyped(c);
    assert Over(Empty, m.stk) == m.stk;
  }

  /** The two steps of the epilogue. */
  lemma EpilogueSane(P: seq<Instr>, c: Scope, o: Env, s: SourceState, m0: State, m: State, ret: Word, caller: Stack)
    requires Rep(P, c, o, s, m, Frame(m0.stk, m0.rsp, m0.rsp, Empty)) && m0.stk == Cons(ret, caller)
    requires 0 <= m.pc && m.pc + 1 < |P| && P[m.pc] == RbpToRsp && P[m.pc + 1] == Ret
    ensures Sane(c, o, m0, Run(P, o, m, 1)) && Sane(c, o, m0, Run(P, o, m, 2))
    ensures ProperEnd(P, m0, ret, caller, Run(P, o, m, 2))
  {
    hide Step, Start, TypedMemory;
    RepTrace(P, c, o, s, m, Frame(m0.stk, m0.rsp, m0.rsp, Empty));
    RepMemory(P, c, o, s, m, Frame(m0.stk, m0.rsp, m0.rsp, Empty));
    RepGlobals(P, c, o, s, m, Frame(m0.stk, m0.rsp, m0.rsp, Empty));
    EpilogueRuns(P, c, o, s, m, ret, caller, m0.rsp);
    RestoreRsp(o, m, s.leaks, m0.stk);
    DoRbpToRsp(P, o, m);
    assert Run(P, o, m, 1) == Run(P, o, Step(P, o, m), 0);
    assert Over(Empty, m0.stk) == m0.stk;
  }

  /** So it is after each of the first `n` steps from `m`. */
  ghost predicate SaneUpTo(P: seq<Instr>, c: Scope, o: Env, m0: State, m: State, n: nat) {
    forall k :: 0 <= k <= n ==> Sane(c, o, m0, Run(P, o, m, k))
  }

  lemma SaneAt(P: seq<Instr>, c: Scope, o: Env, m0: State, m: State, n1: nat, n2: nat, k: nat)
    requires SaneUpTo(P, c, o, m0, m, n1) && SaneUpTo(P, c, o, m0, Run(P, o, m, n1), n2) && k <= n1 + n2
    ensures Sane(c, o, m0, Run(P, o, m, k))
  {
    hide Step, Run, Sane;
    if k > n1 {
      RunPlus(P, o, m, n1, k - n1);
    }
  }

  lemma SaneAfter(P: seq<Instr>, c: Scope, o: Env, m0: State, m: State, n1: nat, n2: nat)
    requires SaneUpTo(P, c, o, m0, m, n1) && SaneUpTo(P, c, o, m0, Run(P, o, m, n1), n2)
    ensures SaneUpTo(P, c, o, m0, m, n1 + n2)
  {
    hide Step, Run, Sane;
    forall k | 0 <= k <= n1 + n2 ensures Sane(c, o, m0, Run(P, o, m, k)) {
      SaneAt(P, c, o, m0, m, n1, n2, k);
    }
  }

  lemma SaneNow(P: seq<Instr>, c: Scope, o: Env, m0: State, m: State, n: nat)
    requires SaneUpTo(P, c, o, m0, m, n)
    ensures Sane(c, o, m0, Run(P, o, m, n))
  {
    hide Step, Run, Sane;
  }

  lemma SaneTwice(P: seq<Instr>, c: Scope, o: Env, m0: State, m: State)
    requires Sane(c, o, m0, m) && Sane(c, o, m0, Run(P, o, m, 1)) && Sane(c, o, m0, Run(P, o, m, 2))
    ensures SaneUpTo(P, c, o, m0, m, 2)
  {
    hide Step, Run, Sane;
    RunNone(P, o, m);
  }

  lemma BodyKept(P: seq<Instr>, c: Scope, o: Env, m0: State, m: State, n: nat)
    requires Throughout(P, c, o, m, n) && forall k :: 0 <= k <= n ==> StandsOn(Run(P, o, m, k).stk, m0.stk)
    ensures SaneUpTo(P, c, o, m0, m, n)
  {
    hide Step, Run, TypedMemory, StandsOn;
  }

  lemma SaneOnce(P: seq<Instr>, c: Scope, o: Env, m0: State, m: State, n: nat)
    requires Sane(c, o, m0, m) && SaneUpTo(P, c, o, m0, Run(P, o, m, 1), n)
    ensures SaneUpTo(P, c, o, m0, m, 1)
  {
    hide Step, Run, Sane;
    RunNone(P, o, m);
    RunNone(P, o, Run(P, o, m, 1));
  }

  /** The prologue and the body. */
  lemma BodySane(c: Scope, o: Env, body: Stmt, m: State, ret: Word, caller: Stack, fuel: nat)
    returns (n: nat, r: Outcome)
    requires Entry(c, o, m, ret, caller) && CheckStmt(c, body)
    ensures var P := MainCode(c, body); var fr := Frame(m.stk, m.rsp, m.rsp, Empty);
      && CleanOutcome(r) && Follows(P, c, o, m, n, 1 + |StmtCode(c, body, 0).code|, fuel, fr, r)
      && SaneUpTo(P, c, o, m, m, n)
  {
    hide Step, Run, StmtCode, Rep, Follows, MainCode, CheckStmt, Entry, TypedMemory, CallsNoStatement, StandsOn,
      Throughout, Sane, SaneUpTo;
    var P, fr := MainCode(c, body), Frame(m.stk, m.rsp, m.rsp, Empty);
    var goal := 1 + |StmtCode(c, body, 0).code|;
    MainLayout(c, body);
    PrologueRuns(c, o, body, m, ret, caller);
    var k;
    k, r := StmtKeepsStack(P, c, o, body, 0, Launch(c), Run(P, o, m, 1), fuel, fr);
    Chain(P, c, o, m, 1, k, goal, fuel, fuel, fr, r, true);
    FlagTrue(r);
    n := 1 + k;
    EntrySane(c, o, m, ret, caller);
    assert Over(Launch(c).leaks, m.stk) == m.stk;
    BodyKept(P, c, o, m, Run(P, o, m, 1), k);
    SaneOnce(P, c, o, m, m, k);
    SaneAfter(P, c, o, m, m, 1, k);
  }

  lemma EndReached(c: Scope, o: Env, body: Stmt, m: State, ret: Word, caller: Stack, fuel: nat) returns (n: nat)
    requires Entry(c, o, m, ret, caller) && CheckStmt(c, body)
    ensures var P := MainCode(c, body);
      ProperEnd(P, m, ret, caller, Run(P, o, m, n)) || (n >= fuel && Run(P, o, m, n).status == Running)
    ensures SaneUpTo(MainCode(c, body), c, o, m, m, n)
  {
    hide Step, Run, StmtCode, Rep, Follows, MainCode, CheckStmt, Entry, Sane, SaneUpTo, ProperEnd;
    var P, fr := MainCode(c, body), Frame(m.stk, m.rsp, m.rsp, Empty);
    var goal := 1 + |StmtCode(c, body, 0).code|;
    MainLayout(c, body);
    var r;
    n, r := BodySane(c, o, body, m, ret, caller, fuel);
    if r.Done? {
      FlagUp(r);
      FollowsDone(P, c, o, m, n, goal, fuel, fr, r);
      EntrySane(c, o, m, ret, caller);
      EpilogueSane(P, c, o, r.s, m, Run(P, o, m, n), ret, caller);
      SaneNow(P, c, o, m, m, n);
      SaneTwice(P, c, o, m, Run(P, o, m, n));
      SaneAfter(P, c, o, m, m, n, 2);
      RunPlus(P, o, m, n, 2);
      n := n + 2;
    } else {
      FollowsEnds(P, c, o, m, n, goal, fuel, fr, r, ret, caller);
    }
  }

  lemma FollowsEnds(P: seq<Instr>, c: Scope, o: Env, m: State, n: nat, goal: int, fuel: nat, fr: Frame, r: Outcome,
                    ret: Word, caller: Stack)
    requires Follows(P, c, o, m, n, goal, fuel, fr, r) && CleanOutcome(r) && !r.Done?
    ensures ProperEnd(P, m, ret, caller, Run(P, o, m, n)) || (n >= fuel && Run(P, o, m, n).status == Running)
  {
    hide Step, Run, Represents, Linked, WellTyped, UniqueLabels;
  }

  /** Every run of every accepted program, whatever its values, departures included: after any number
      of steps it is still going, or has come to a proper end, and either way memory is typed and the
      return address is under the stack until it is used. In particular no instruction ever finds the
      stack empty, a label undefined, a register stack over- or underflowing or %rsp misaligned at a
      call, and no run but a finished one gets at the words of its caller. */
  lemma NeverStuck(files: Files, ts: seq<Token>, o: Env, m: State, ret: Word, caller: Stack, k: nat)
    requires ParseProgram(files, ts, NOTHING).Some?
    requires Entry(ParseProgram(files, ts, NOTHING).value.scope, o, m, ret, caller)
    ensures var p := ParseProgram(files, ts, NOTHING).value;
      var P := MainCode(p.scope, p.body);
      var m' := Run(P, o, m, k);
      && (m'.status == Running || ProperEnd(P, m, ret, caller, m'))
      && Sane(p.scope, o, m, m')
  {
    hide Step, Run, MainCode, Entry, CheckStmt, DeclareBlock, ParseBlock, Sane, FaultsAt;
    var p := ParseProgram(files, ts, NOTHING).value;
    var n := EndReached(p.scope, o, p.body, m, ret, caller, k);
    Meanwhile(MainCode(p.scope, p.body), o, m, n, k);
  }
}
