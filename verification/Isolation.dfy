/** Two ways to look at a part of a run by itself: with the words below its stack taken away, and with
    the program around its code taken away. Either way, what the part does alone it does in place. */
module Isolation {
  import opened Words
  import opened Memory
  import opened Typing
  import opened Machine
  import opened Simulation
  import opened StmtSim

  /** At any moment a run is still going or already is where it ends. */
  lemma Meanwhile(P: seq<Instr>, o: Env, m: State, n: nat, k: nat)
    ensures k <= n ==> Run(P, o, m, k).status == Running || Run(P, o, m, k) == Run(P, o, m, n)
    ensures k > n && Run(P, o, m, n).status != Running ==> Run(P, o, m, k) == Run(P, o, m, n)
  {
    hide Step, Run;
    if k <= n {
      RunPlus(P, o, m, k, n - k);
      if Run(P, o, m, k).status != Running {
        HaltedStays(P, o, Run(P, o, m, k), n - k);
      }
    } else if Run(P, o, m, n).status != Running {
      RunPlus(P, o, m, n, k - n);
      HaltedStays(P, o, Run(P, o, m, n), k - n);
    }
  }

  // ---------- without the words below ----------

  /** The stack is some words over `base`. */
  ghost predicate StandsOn(s: Stack, base: Stack) {
    exists w: Stack :: s == Over(w, base)
  }

  lemma {:induction false} OverOver(a: Stack, b: Stack, c: Stack)
    ensures Over(Over(a, b), c) == Over(a, Over(b, c)) && Over(a, Empty) == a
    ensures Depth(Over(a, b)) == Depth(a) + Depth(b)
  {
    if a.Cons? {
      OverOver(a.below, b, c);
    }
  }

  lemma OverTop(s: Stack, base: Stack)
    ensures s.Cons? ==> Over(s, base) == Cons(s.top, Over(s.below, base))
    ensures forall w :: s.Cons? ==> Over(Cons(w, s.below), base) == Cons(w, Over(s.below, base))
  {}

  /** The same state with more words below its stack. */
  function On(s: State, base: Stack): State {
    s.(stk := Over(s.stk, base))
  }

  lemma {:induction false} DropOver(s: Stack, base: Stack, n: nat)
    requires Drop(s, n).Some?
    ensures Drop(Over(s, base), n) == Some(Over(Drop(s, n).value, base))
    decreases n
  {
    if n > 0 {
      DropOver(s.below, base, n - 1);
    }
  }

  lemma {:induction false} ExposeOver(o: Env, s: Stack, base: Stack, rsp: int, n: nat)
    ensures Expose(o, Over(s, base), rsp, n) == Over(Expose(o, s, rsp, n), base)
    decreases n
  {
    if n > 0 {
      ExposeOver(o, Cons(o.junk(rsp - 8), s), base, rsp - 8, n - 1);
    }
  }

  lemma MoveRspOn(o: Env, s: State, base: Stack, rsp: int)
    requires MoveRsp(o, s, rsp).status != Stuck
    ensures MoveRsp(o, On(s, base), rsp) == On(MoveRsp(o, s, rsp), base)
  {
    if rsp >= s.rsp {
      DropOver(s.stk, base, (rsp - s.rsp) / 8);
    } else {
      ExposeOver(o, s.stk, base, s.rsp, (s.rsp - rsp) / 8);
    }
  }

  lemma CallOn(o: Env, s: State, base: Stack)
    ensures forall e :: DoCall(o, On(s, base), e) == On(DoCall(o, s, e), base)
  {}

  /** The instructions that write %rsp. */
  predicate Moves(i: Instr) {
    i.AddRsp? || i.RbpToRsp? || i.AndRsp? || i.OrR12Rsp?
  }

  lemma MoveOn(o: Env, i: Instr, s: State, base: Stack)
    requires Moves(i) && StepFrame(o, i, s).status != Stuck
    ensures StepFrame(o, i, On(s, base)) == On(StepFrame(o, i, s), base)
  {
    hide MoveRsp, PrintfEvent, ReadArgs, OrNibble, DoCall, Over;
    var q := s.(flags := None);
    if i.AddRsp? {
      MoveRspOn(o, q, base, s.rsp + i.k);
    } else if i.RbpToRsp? {
      MoveRspOn(o, s, base, s.rbp);
    } else if i.AndRsp? {
      MoveRspOn(o, q, base, s.rsp - s.rsp % 16);
    } else {
      MoveRspOn(o, q, base, OrNibble(s.rsp, s.r12));
    }
  }

  lemma FrameOn(o: Env, i: Instr, s: State, base: Stack)
    requires StepFrame(o, i, s).status != Stuck
    ensures StepFrame(o, i, On(s, base)) == On(StepFrame(o, i, s), base)
  {
    hide MoveRsp, PrintfEvent, ReadArgs, OrNibble, DoCall, Over;
    CallOn(o, s, base);
    OverTop(s.stk, base);
    if Moves(i) {
      MoveOn(o, i, s, base);
    }
  }

  lemma FPushOn(s: State, base: Stack)
    ensures forall w :: FPush(On(s, base), w) == On(FPush(s, w), base)
  {
    hide Depth;
  }

  /** The instructions of the x87 stack and the vector registers. */
  predicate Floats(i: Instr) {
    i.Fld? || i.Fild? || i.Fstp? || i.Fistp? || i.Farith? || i.Fcomip? || i.FpopTop?
    || i.MovsdLoad? || i.MovsdStore? || i.Pxor?
  }

  lemma FpuOn(o: Env, i: Instr, s: State, base: Stack)
    requires Floats(i) && StepFloat(o, i, s).status != Stuck
    ensures StepFloat(o, i, On(s, base)) == On(StepFloat(o, i, s), base)
  {
    hide StepFrame, Bitwise, Drop, Over, Indefinite, FloatFlags, Signed, FPush;
    OverTop(s.stk, base);
    FPushOn(s, base);
    if i.Fld? {
      DropOver(s.stk, base, i.words);
      OverTop(Drop(s.stk, i.words).value, base);
    }
  }

  lemma FloatOn(o: Env, i: Instr, s: State, base: Stack)
    requires StepFloat(o, i, s).status != Stuck
    ensures StepFloat(o, i, On(s, base)) == On(StepFloat(o, i, s), base)
  {
    hide StepFrame, Bitwise, Drop, Over, Indefinite, FloatFlags, Signed, FPush;
    if Floats(i) {
      FpuOn(o, i, s, base);
    } else {
      FrameOn(o, i, s, base);
    }
  }

  /** The instructions that leave a result in a register. */
  predicate Computes(i: Instr) {
    i.AddReg? || i.SubReg? || i.OrReg? || i.AndReg? || i.MulReg? || i.DivReg? || i.AndOne? || i.MovbAl?
  }

  lemma ComputeOn(o: Env, i: Instr, s: State, base: Stack)
    requires Computes(i)
    ensures StepAlu(o, i, On(s, base)) == On(StepAlu(o, i, s), base)
  {
    hide StepFloat, Bitwise, Divide, Load, Mapped, Over, Wrap;
    DivideOn(s, base);
  }

  lemma AluOn(o: Env, i: Instr, s: State, base: Stack)
    requires StepAlu(o, i, s).status != Stuck
    ensures StepAlu(o, i, On(s, base)) == On(StepAlu(o, i, s), base)
  {
    hide StepFloat, Bitwise, Divide, Load, Mapped, Over, Not, Wrap, Compare, Signed;
    if Computes(i) {
      hide StepAlu;
      ComputeOn(o, i, s, base);
    } else if i.NotTop? {
      OverTop(s.stk, base);
    } else if !i.TestReg? && !i.CmpReg? && !i.CmpVar? {
      FloatOn(o, i, s, base);
    }
  }

  lemma DivideOn(s: State, base: Stack)
    ensures forall a: Word, d: Word, b: Word :: Divide(On(s, base), a, d, b) == On(Divide(s, a, d, b), base)
  {}

  /** The instructions of the stack and of data memory. */
  predicate Touches(i: Instr) {
    i.PushVar? || i.PushImm? || i.PushReg? || i.PushInd? || i.PopReg? || i.PopVar? || i.MovImm? || i.MovInd?
    || i.LeaVar? || i.LeaFormat? || i.IncVar?
  }

  lemma DataOn(o: Env, i: Instr, s: State, base: Stack)
    requires StepData(o, i, s).status != Stuck
    ensures StepData(o, i, On(s, base)) == On(StepData(o, i, s), base)
  {
    hide StepAlu, Load, Store, Mapped, Over, SignExtend32, Wrap, Push;
    OverTop(s.stk, base);
    PushOn(s, base);
    if !Touches(i) {
      AluOn(o, i, s, base);
    }
  }

  lemma PushOn(s: State, base: Stack)
    ensures forall w :: Push(On(s, base), w) == On(Push(s, w), base)
  {}

  /** An instruction that does not get stuck does not see what is below the stack. */
  lemma StepOn(P: seq<Instr>, o: Env, s: State, base: Stack)
    requires Step(P, o, s).status != Stuck
    ensures Step(P, o, On(s, base)) == On(Step(P, o, s), base)
  {
    hide StepData, Find, Over;
    if s.status == Running && 0 <= s.pc < |P| && !P[s.pc].Def? && !P[s.pc].Jmp? && !P[s.pc].Jcc? {
      DataOn(o, P[s.pc], s, base);
    }
  }

  /** A run that does not get stuck is the same on any stack. */
  lemma {:induction false} RunOn(P: seq<Instr>, o: Env, s: State, base: Stack, n: nat)
    requires Run(P, o, s, n).status != Stuck
    ensures Run(P, o, On(s, base), n) == On(Run(P, o, s, n), base)
    decreases n
  {
    hide Step;
    if n > 0 {
      Meanwhile(P, o, s, n, 1);
      assert Run(P, o, s, 1) == Run(P, o, Step(P, o, s), 0);
      StepOn(P, o, s, base);
      RunOn(P, o, Step(P, o, s), base, n - 1);
    }
  }

  /** If a run does not get stuck on the empty stack, then on any stack no step of it reaches below. */
  lemma NeverBelow(P: seq<Instr>, o: Env, m: State, n: nat)
    requires Run(P, o, m.(stk := Empty), n).status != Stuck
    ensures Run(P, o, m, n) == On(Run(P, o, m.(stk := Empty), n), m.stk)
    ensures forall k :: 0 <= k <= n ==> StandsOn(Run(P, o, m, k).stk, m.stk)
  {
    hide Step, Run;
    var m0 := m.(stk := Empty);
    assert On(m0, m.stk) == m;
    RunOn(P, o, m0, m.stk, n);
    forall k | 0 <= k <= n ensures StandsOn(Run(P, o, m, k).stk, m.stk) {
      Meanwhile(P, o, m0, n, k);
      RunOn(P, o, m0, m.stk, k);
      assert Run(P, o, m, k).stk == Over(Run(P, o, m0, k).stk, m.stk);
    }
  }

  // ---------- without the program around ----------

  /** The program with nothing but returns outside [lo, hi) and one further position. */
  function Only(P: seq<Instr>, lo: int, hi: int, to: int): seq<Instr> {
    seq(|P|, i requires 0 <= i < |P| => if lo <= i < hi || i == to then P[i] else Ret)
  }

  lemma OnlyLabels(P: seq<Instr>, lo: int, hi: int, to: int)
    requires UniqueLabels(P)
    ensures UniqueLabels(Only(P, lo, hi, to))
  {}

  lemma OnlyCode(P: seq<Instr>, lo: int, hi: int, to: int, code: seq<Instr>)
    requires CodeAt(P, lo, code) && lo + |code| <= hi
    ensures CodeAt(Only(P, lo, hi, to), lo, code)
  {}

  lemma {:induction false} FindFound(P: seq<Instr>, l: Label, from: nat)
    requires from <= |P| && Find(P, l, from) < |P|
    ensures P[Find(P, l, from)] == Def(l)
    decreases |P| - from
  {
    if from < |P| && P[from] != Def(l) {
      FindFound(P, l, from + 1);
    }
  }

  /** The status of a run that has neither returned nor got stuck. */
  predicate Alive(m: State) {
    m.status == Running || m.status.Faulted?
  }

  lemma JumpAlone(P: seq<Instr>, s: State, l: Label, lo: int, hi: int, to: int)
    requires UniqueLabels(P) && JumpTo(Only(P, lo, hi, to), s, l).status != Stuck
    ensures JumpTo(P, s, l) == JumpTo(Only(P, lo, hi, to), s, l)
  {
    hide Find;
    var P' := Only(P, lo, hi, to);
    if Find(P', l, 0) < |P'| {
      FindFound(P', l, 0);
      FindDefined(P, Find(P', l, 0), 0);
    }
  }

  lemma RetStops(P: seq<Instr>, o: Env, s: State)
    requires s.status == Running && (0 <= s.pc < |P| ==> P[s.pc] == Ret)
    ensures !Alive(Step(P, o, s))
  {}

  /** An instruction that leaves the machine alive is the same in the whole program. */
  lemma StepAlone(P: seq<Instr>, o: Env, s: State, lo: int, hi: int, to: int)
    requires UniqueLabels(P) && s.status == Running && Alive(Step(Only(P, lo, hi, to), o, s))
    ensures 0 <= s.pc < |P| && (lo <= s.pc < hi || s.pc == to)
    ensures Step(P, o, s) == Step(Only(P, lo, hi, to), o, s)
  {
    hide StepData, JumpTo, UniqueLabels;
    var P' := Only(P, lo, hi, to);
    if 0 <= s.pc < |P| && (lo <= s.pc < hi || s.pc == to) {
      assert P'[s.pc] == P[s.pc];
      match P[s.pc]
      case Jmp(l) => JumpStatus(P', s, l); JumpAlone(P, s, l, lo, hi, to);
      case Jcc(_, l) =>
        if s.flags.Some? && Holds(P[s.pc].c, s.flags.value) {
          JumpAlone(P, s, l, lo, hi, to);
        }
      case _ =>
    } else {
      RetStops(P', o, s);
    }
  }

  lemma JumpStatus(P: seq<Instr>, s: State, l: Label)
    requires s.status == Running
    ensures JumpTo(P, s, l).status == Running || JumpTo(P, s, l).status == Stuck
  {}

  /** The instructions that write data memory. */
  predicate Writes(i: Instr) {
    i.PopVar? || i.MovInd? || i.IncVar?
  }

  lemma FrameKeepsMemory(o: Env, i: Instr, s: State)
    ensures StepFrame(o, i, s).mem == s.mem
  {
    hide PrintfEvent, ReadArgs, OrNibble, MoveRsp, DoCall;
    CallsKeepMemory(o, s);
    if Moves(i) {
      MovesKeepMemory(o, s);
      MovesKeepMemory(o, s.(flags := None));
    }
  }

  lemma CallsKeepMemory(o: Env, s: State)
    ensures forall e :: DoCall(o, s, e).mem == s.mem
  {}

  lemma MovesKeepMemory(o: Env, s: State)
    ensures forall rsp :: MoveRsp(o, s, rsp).mem == s.mem
  {
    hide Drop, Expose;
  }

  lemma FloatKeepsMemory(o: Env, i: Instr, s: State)
    ensures StepFloat(o, i, s).mem == s.mem
  {
    hide StepFrame, Bitwise, Depth, Drop;
    FrameKeepsMemory(o, i, s);
  }

  lemma StepKeepsMemory(P: seq<Instr>, o: Env, s: State)
    requires (0 <= s.pc < |P| ==> !Writes(P[s.pc])) || Step(P, o, s).status.Faulted?
    ensures Step(P, o, s).mem == s.mem
  {
    hide StepFloat, Load, Store, Mapped, Bitwise, Find;
    if 0 <= s.pc < |P| {
      FloatKeepsMemory(o, P[s.pc], s);
    }
  }

  lemma WriterFallsThrough(P: seq<Instr>, o: Env, s: State)
    requires s.status == Running && 0 <= s.pc < |P| && Writes(P[s.pc]) && Step(P, o, s).status == Running
    ensures Step(P, o, s).pc == s.pc + 1
  {
    hide Load, Store, Mapped;
  }

  /** No instruction of the window writes memory, except perhaps its last, behind which the window ends. */
  ghost predicate Quiet(P: seq<Instr>, lo: int, hi: int, to: int) {
    && (forall i :: lo <= i < hi - 1 && 0 <= i < |P| ==> !Writes(P[i]))
    && (0 <= to < |P| ==> !Writes(P[to])) && to != hi
  }

  /** A run that stays alive in the window is the run of the whole program; it leaves the data memory
      as it is up to its last step. */
  lemma {:induction false} RunAlone(P: seq<Instr>, o: Env, m: State, n: nat, k: nat, lo: int, hi: int, to: int)
    requires UniqueLabels(P) && Quiet(P, lo, hi, to) && k <= n && Alive(Run(Only(P, lo, hi, to), o, m, n))
    ensures Run(P, o, m, k) == Run(Only(P, lo, hi, to), o, m, k)
    ensures Run(P, o, m, k).mem == m.mem || (k == n && Run(P, o, m, k).status == Running)
    decreases n
  {
    hide Step, UniqueLabels, Quiet, Only, Writes;
    var P' := Only(P, lo, hi, to);
    if m.status != Running {
      HaltedStays(P, o, m, k);
      HaltedStays(P', o, m, k);
    } else if k > 0 {
      var q := Step(P', o, m);
      if !Alive(q) {
        HaltedStays(P', o, q, n - 1);
      }
      StepAlone(P, o, m, lo, hi, to);
      RunAlone(P, o, q, n - 1, k - 1, lo, hi, to);
      LastWrites(P, o, m, n, lo, hi, to);
    }
  }

  /** A step that writes is the last of its run. */
  lemma LastWrites(P: seq<Instr>, o: Env, m: State, n: nat, lo: int, hi: int, to: int)
    requires UniqueLabels(P) && Quiet(P, lo, hi, to) && n > 0 && m.status == Running
    requires Alive(Run(Only(P, lo, hi, to), o, m, n)) && Alive(Step(Only(P, lo, hi, to), o, m))
    ensures Step(P, o, m).mem == m.mem || (n == 1 && Step(P, o, m).status == Running)
  {
    hide Step, UniqueLabels;
    var P' := Only(P, lo, hi, to);
    StepAlone(P, o, m, lo, hi, to);
    var q := Step(P, o, m);
    if Writes(P[m.pc]) && q.status == Running {
      WriterFallsThrough(P, o, m);
      assert q.pc == hi;
      if n > 1 {
        RetStops(P', o, q);
        HaltedStays(P', o, Step(P', o, q), n - 2);
      }
    } else {
      StepKeepsMemory(P, o, m);
    }
  }
}
