/** Semantic preservation of whole programs, from the entry of the main procedure. */
module Preservation {
  import opened Words
  import opened Memory
  import opened Syntax
  import opened Typing
  import opened Machine
  import opened Emission
  import opened Labels
  import opened Semantics
  import opened Simulation
  import opened Steps
  import opened ExprSim
  import opened StmtSim

  /** The machine as the C runtime calls the main procedure: a return address on a stack of whole
      words, the globals zeroed, nothing printed yet. */
  ghost predicate Entry(c: Scope, o: Env, m: State, ret: Word, caller: Stack) {
    && Linked(c, o) && Represents(c, o, Initial(c), m.mem)
    && m.status == Running && m.pc == 0 && m.rsp % 8 == 0 && m.fpu == Empty
    && m.stk == Cons(ret, caller) && m.trace == []
  }

  function Launch(c: Scope): SourceState {
    SourceState(Initial(c), [], Empty)
  }

  lemma InitialTyped(c: Scope)
    ensures WellTyped(c, Initial(c))
  {}

  /** Where the parts of the main procedure are. */
  lemma MainLayout(c: Scope, body: Stmt)
    ensures var P := MainCode(c, body); var code := StmtCode(c, body, 0).code;
      && CodeAt(P, 1, code) && |P| == |code| + 3
      && P[0] == RspToRbp && P[1 + |code|] == RbpToRsp && P[2 + |code|] == Ret
  {
    hide StmtCode, CodeAt;
    var P := MainCode(c, body);
    var code := StmtCode(c, body, 0).code;
    WholeCode(P);
    CodeSplit(P, 0, [RspToRbp] + code, [RbpToRsp, Ret]);
    CodeSplit(P, 0, [RspToRbp], code);
    OneAt(P, 0, RspToRbp);
    TwoAt(P, 1 + |code|, RbpToRsp, Ret);
  }

  /** The prologue establishes the simulation. */
  lemma PrologueRuns(c: Scope, o: Env, body: Stmt, m: State, ret: Word, caller: Stack)
    requires Entry(c, o, m, ret, caller)
    ensures var P := MainCode(c, body); var m1 := Run(P, o, m, 1);
      m1.pc == 1 && Rep(P, c, o, Launch(c), m1, Frame(m.stk, m.rsp, m.rsp, Empty))
  {
    hide Step, StmtCode, MainCode, Represents, WellTyped;
    var P := MainCode(c, body);
    MainLabels(c, body);
    MainLayout(c, body);
    InitialTyped(c);
    DoRspToRbp(P, o, m);
    Run1(P, o, m);
  }

  lemma {:induction false} DropLeaks(leaks: Stack, base: Stack)
    ensures Drop(Over(leaks, base), Depth(leaks)) == Some(base)
  {
    if leaks.Cons? {
      DropLeaks(leaks.below, base);
    }
  }

  lemma RestoreRsp(o: Env, s: State, leaks: Stack, base: Stack)
    requires s.stk == Over(leaks, base) && s.rbp == s.rsp + 8 * Depth(leaks)
    ensures MoveRsp(o, s, s.rbp) == s.(pc := s.pc + 1, stk := base, rsp := s.rbp)
  {
    DropLeaks(leaks, base);
    assert (s.rbp - s.rsp) / 8 == Depth(leaks);
  }

  /** The epilogue finds the return address under whatever the body leaked. */
  lemma EpilogueRuns(P: seq<Instr>, c: Scope, o: Env, s: SourceState, m: State, ret: Word, caller: Stack, rsp: int)
    requires Rep(P, c, o, s, m, Frame(Cons(ret, caller), rsp, rsp, Empty))
    requires 0 <= m.pc && m.pc + 1 < |P| && P[m.pc] == RbpToRsp && P[m.pc + 1] == Ret
    ensures Run(P, o, m, 2)
         == m.(pc := m.pc + 1, status := Returned(ret), stk := caller, rsp := rsp + 8)
  {
    hide Step, Start;
    RepTrace(P, c, o, s, m, Frame(Cons(ret, caller), rsp, rsp, Empty));
    RestoreRsp(o, m, s.leaks, Cons(ret, caller));
    DoRbpToRsp(P, o, m);
    DoRet(P, o, Step(P, o, m));
    Run2(P, o, m);
  }

  /** The whole body, in a number of steps that grows with the fuel. */
  lemma BodyRuns(c: Scope, o: Env, body: Stmt, m: State, ret: Word, caller: Stack, fuel: nat) returns (n: nat)
    requires Entry(c, o, m, ret, caller) && CheckStmt(c, body)
    ensures Follows(MainCode(c, body), c, o, m, n, 1 + |StmtCode(c, body, 0).code|, fuel,
                    Frame(m.stk, m.rsp, m.rsp, Empty), Exec(c, o, body, Launch(c), fuel))
  {
    hide Step, Run, StmtCode, Exec, Rep, Follows, MainCode, Entry, CheckStmt;
    var P, fr := MainCode(c, body), Frame(m.stk, m.rsp, m.rsp, Empty);
    MainLayout(c, body);
    PrologueRuns(c, o, body, m, ret, caller);
    var k := StmtRuns(P, c, o, body, 0, Launch(c), Run(P, o, m, 1), fuel, fr);
    var r := Exec(c, o, body, Launch(c), fuel);
    Chain(P, c, o, m, 1, k, 1 + |StmtCode(c, body, 0).code|, fuel, fuel, fr, r, true);
    FlagTrue(r);
    n := 1 + k;
  }

  lemma RepGlobals(P: seq<Instr>, c: Scope, o: Env, s: SourceState, m: State, fr: Frame)
    requires Rep(P, c, o, s, m, fr)
    ensures Represents(c, o, s.st, m.mem) && m.trace == s.tr && m.rbp == fr.rbp
  {}

  /** A terminating run: the machine returns to its caller with the stack it was given, the same
      trace, and every global equal to its source value. %rbp then holds the %rsp of the entry, so the
      caller's %rbp is preserved iff the two were equal. */
  lemma TerminationPreserved(c: Scope, o: Env, body: Stmt, m: State, ret: Word, caller: Stack, fuel: nat,
                             s: SourceState)
    requires Entry(c, o, m, ret, caller) && CheckStmt(c, body)
    requires Exec(c, o, body, Launch(c), fuel) == Done(s, true)
    ensures exists n :: var m' := Run(MainCode(c, body), o, m, n);
      && m'.status == Returned(ret) && m'.stk == caller && m'.rsp == m.rsp + 8 && m'.rbp == m.rsp
      && m'.trace == s.tr && Represents(c, o, s.st, m'.mem)
  {
    hide Step, Run, StmtCode, Exec, MainCode, Follows, Rep, Represents, CheckStmt;
    var P := MainCode(c, body);
    var fr := Frame(m.stk, m.rsp, m.rsp, Empty);
    var n := BodyRuns(c, o, body, m, ret, caller, fuel);
    MainLayout(c, body);
    FollowsDone(P, c, o, m, n, 1 + |StmtCode(c, body, 0).code|, fuel, fr, Done(s, true));
    var m1 := Run(P, o, m, n);
    RepGlobals(P, c, o, s, m1, fr);
    EpilogueRuns(P, c, o, s, m1, ret, caller, m.rsp);
    RunPlus(P, o, m, n, 2);
    assert Run(P, o, m, n + 2).status == Returned(ret);
  }

  /** A trap of the source is the corresponding fault of the machine, with the same globals and after
      the same trace. */
  lemma TrapPreserved(c: Scope, o: Env, body: Stmt, m: State, ret: Word, caller: Stack, fuel: nat, k: TrapKind,
                      s: SourceState)
    requires Entry(c, o, m, ret, caller) && CheckStmt(c, body)
    requires Exec(c, o, body, Launch(c), fuel) == Trapped(k, s, true)
    ensures exists n :: Traps(MainCode(c, body), c, o, s, Run(MainCode(c, body), o, m, n), k)
  {
    hide Step, Run, StmtCode, Exec;
    var n := BodyRuns(c, o, body, m, ret, caller, fuel);
    assert Traps(MainCode(c, body), c, o, s, Run(MainCode(c, body), o, m, n), k);
  }

  lemma FrameTrace(o: Env, i: Instr, s: State)
    ensures s.trace <= StepFrame(o, i, s).trace
  {
    hide PrintfEvent, ReadArgs, OrNibble;
  }

  lemma FloatTrace(o: Env, i: Instr, s: State)
    ensures s.trace <= StepFloat(o, i, s).trace
  {
    hide StepFrame;
    FrameTrace(o, i, s);
  }

  lemma AluTrace(o: Env, i: Instr, s: State)
    ensures s.trace <= StepAlu(o, i, s).trace
  {
    hide StepFloat, ReadVar, Bitwise;
    FloatTrace(o, i, s);
  }

  lemma StepTrace(P: seq<Instr>, o: Env, s: State)
    ensures s.trace <= Step(P, o, s).trace
  {
    hide StepAlu, ReadVar, Load, Store, Mapped;
    if s.status == Running && 0 <= s.pc < |P| {
      AluTrace(o, P[s.pc], s);
    }
  }

  lemma {:induction false} TraceGrows(P: seq<Instr>, o: Env, s: State, n: nat)
    ensures s.trace <= Run(P, o, s, n).trace
    decreases n
  {
    hide Step;
    if n > 0 {
      StepTrace(P, o, s);
      TraceGrows(P, o, Step(P, o, s), n - 1);
    }
  }

  /** The machine is still going, with the globals and the trace of the source state. */
  ghost predicate GoesOnFrom(c: Scope, o: Env, s: SourceState, m: State) {
    m.status == Running && m.trace == s.tr && Represents(c, o, s.st, m.mem)
  }

  /** A source run that is cut off at `fuel`: that many machine steps at least without stopping,
      reaching exactly the globals and the trace of the cut-off run. */
  lemma PartialRun(c: Scope, o: Env, body: Stmt, m: State, ret: Word, caller: Stack, fuel: nat) returns (n: nat)
    requires Entry(c, o, m, ret, caller) && CheckStmt(c, body)
    requires Exec(c, o, body, Launch(c), fuel).OutOfFuel? && Exec(c, o, body, Launch(c), fuel).ok
    ensures n >= fuel && GoesOnFrom(c, o, Exec(c, o, body, Launch(c), fuel).s, Run(MainCode(c, body), o, m, n))
  {
    hide Step, Run, StmtCode, Exec, MainCode, Rep, Represents;
    n := BodyRuns(c, o, body, m, ret, caller, fuel);
    var s, m' := Exec(c, o, body, Launch(c), fuel).s, Run(MainCode(c, body), o, m, n);
    var fr := Frame(m.stk, m.rsp, m.rsp, Empty);
    RepTrace(MainCode(c, body), c, o, s, m', fr);
    RepGlobals(MainCode(c, body), c, o, s, m', fr);
  }

  ghost predicate Diverges(c: Scope, o: Env, body: Stmt) {
    forall fuel: nat :: Exec(c, o, body, Launch(c), fuel).OutOfFuel? && Exec(c, o, body, Launch(c), fuel).ok
  }

  /** A source run that never ends: for every k the machine takes k steps without stopping, every
      output prefix of either run is an output prefix of the other, and every state in which the
      source run can be cut off is reached. */
  lemma DivergencePreserved(c: Scope, o: Env, body: Stmt, m: State, ret: Word, caller: Stack, k: nat)
    requires Entry(c, o, m, ret, caller) && CheckStmt(c, body) && Diverges(c, o, body)
    ensures Run(MainCode(c, body), o, m, k).status == Running
    ensures Run(MainCode(c, body), o, m, k).trace <= Exec(c, o, body, Launch(c), k).s.tr
    ensures exists n :: n >= k && GoesOnFrom(c, o, Exec(c, o, body, Launch(c), k).s, Run(MainCode(c, body), o, m, n))
  {
    hide Step, Run, Exec, MainCode, Entry, CheckStmt, Represents;
    var P := MainCode(c, body);
    var n := PartialRun(c, o, body, m, ret, caller, k);
    RunPlus(P, o, m, k, n - k);
    TraceGrows(P, o, Run(P, o, m, k), n - k);
    if Run(P, o, m, k).status != Running {
      HaltedStays(P, o, Run(P, o, m, k), n - k);
    }
  }
}
