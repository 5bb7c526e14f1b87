/** What each instruction does from a state that can execute it. */
module Steps {
  import opened Words
  import opened Memory
  import opened Syntax
  import opened Typing
  import opened Machine

  predicate Fetch(P: seq<Instr>, m: State, i: Instr) {
    m.status == Running && 0 <= m.pc < |P| && P[m.pc] == i
  }

  lemma DoPushVar(P: seq<Instr>, o: Env, m: State, x: Name)
    requires Fetch(P, m, PushVar(x)) && x in o.addr && Mapped(m.mem, o.addr[x])
    ensures Step(P, o, m) == Push(m, Load(m.mem, o.addr[x]))
  {}

  lemma DoPushImm(P: seq<Instr>, o: Env, m: State, v: Word)
    requires Fetch(P, m, PushImm(v))
    ensures Step(P, o, m) == Push(m, SignExtend32(v))
  {}

  lemma DoPushReg(P: seq<Instr>, o: Env, m: State, r: Reg)
    requires Fetch(P, m, PushReg(r))
    ensures Step(P, o, m) == Push(m, Get(m.regs, r))
  {}

  lemma DoPushInd(P: seq<Instr>, o: Env, m: State)
    requires Fetch(P, m, PushInd)
    ensures Step(P, o, m) ==
      if Mapped(m.mem, Get(m.regs, RAX)) then Push(m, Load(m.mem, Get(m.regs, RAX)))
      else Halt(m, Faulted(PageFault))
  {}

  lemma DoPopReg(P: seq<Instr>, o: Env, m: State, r: Reg)
    requires Fetch(P, m, PopReg(r)) && m.stk.Cons?
    ensures Step(P, o, m)
         == m.(pc := m.pc + 1, stk := m.stk.below, rsp := m.rsp + 8, regs := m.regs[r := m.stk.top])
  {}

  lemma DoPopVar(P: seq<Instr>, o: Env, m: State, x: Name)
    requires Fetch(P, m, PopVar(x)) && m.stk.Cons? && x in o.addr && Mapped(m.mem, o.addr[x])
    ensures Step(P, o, m)
         == m.(pc := m.pc + 1, stk := m.stk.below, rsp := m.rsp + 8, mem := Store(m.mem, o.addr[x], m.stk.top))
  {}

  lemma DoMovImm(P: seq<Instr>, o: Env, m: State, v: Word, r: Reg)
    requires Fetch(P, m, MovImm(v, r))
    ensures Step(P, o, m) == SetReg(m, r, v)
  {}

  lemma DoMovInd(P: seq<Instr>, o: Env, m: State)
    requires Fetch(P, m, MovInd)
    ensures Step(P, o, m) ==
      if Mapped(m.mem, Get(m.regs, RAX))
      then m.(pc := m.pc + 1, mem := Store(m.mem, Get(m.regs, RAX), Get(m.regs, RBX)))
      else Halt(m, Faulted(PageFault))
  {}

  lemma DoLeaVar(P: seq<Instr>, o: Env, m: State, x: Name)
    requires Fetch(P, m, LeaVar(x)) && x in o.addr
    ensures Step(P, o, m) == SetReg(m, RAX, o.addr[x])
  {}

  lemma DoLeaFormat(P: seq<Instr>, o: Env, m: State, f: Format, r: Reg)
    requires Fetch(P, m, LeaFormat(f, r)) && f in o.format
    ensures Step(P, o, m) == SetReg(m, r, o.format[f])
  {}

  lemma DoIncVar(P: seq<Instr>, o: Env, m: State, x: Name)
    requires Fetch(P, m, IncVar(x)) && x in o.addr && Mapped(m.mem, o.addr[x])
    ensures Step(P, o, m) ==
      m.(pc := m.pc + 1, flags := None, mem := Store(m.mem, o.addr[x], Wrap(Load(m.mem, o.addr[x]) + 1)))
  {}

  lemma DoAdd(P: seq<Instr>, o: Env, m: State)
    requires Fetch(P, m, AddReg)
    ensures Step(P, o, m) == SetArith(m, RAX, Wrap(Get(m.regs, RAX) + Get(m.regs, RBX)))
  {}

  lemma DoSub(P: seq<Instr>, o: Env, m: State)
    requires Fetch(P, m, SubReg)
    ensures Step(P, o, m) == SetArith(m, RAX, Wrap(Get(m.regs, RAX) - Get(m.regs, RBX)))
  {}

  lemma DoOr(P: seq<Instr>, o: Env, m: State)
    requires Fetch(P, m, OrReg)
    ensures Step(P, o, m) == SetArith(m, RAX, Bitwise(BitOr, Get(m.regs, RAX), Get(m.regs, RBX)))
  {}

  lemma DoAnd(P: seq<Instr>, o: Env, m: State)
    requires Fetch(P, m, AndReg)
    ensures Step(P, o, m) == SetArith(m, RBX, Bitwise(BitAnd, Get(m.regs, RBX), Get(m.regs, RAX)))
  {}

  lemma DoMul(P: seq<Instr>, o: Env, m: State)
    requires Fetch(P, m, MulReg)
    ensures Step(P, o, m) == SetArith(m, RAX, 0).(regs :=
      m.regs[RAX := Wrap(Get(m.regs, RAX) * Get(m.regs, RBX))]
            [RDX := Wrap(Get(m.regs, RAX) * Get(m.regs, RBX) / 0x1_0000_0000_0000_0000)])
  {}

  lemma DoDiv(P: seq<Instr>, o: Env, m: State)
    requires Fetch(P, m, DivReg)
    ensures Step(P, o, m) == Divide(m, Get(m.regs, RAX), Get(m.regs, RDX), Get(m.regs, RBX))
  {}

  lemma DoNot(P: seq<Instr>, o: Env, m: State)
    requires Fetch(P, m, NotTop) && m.stk.Cons?
    ensures Step(P, o, m) == m.(pc := m.pc + 1, stk := Cons(Not(m.stk.top), m.stk.below))
  {}

  lemma DoAndOne(P: seq<Instr>, o: Env, m: State, r: Reg)
    requires Fetch(P, m, AndOne(r))
    ensures Step(P, o, m) == SetArith(m, r, Bitwise(BitAnd, Get(m.regs, r), 1))
  {}

  lemma DoTest(P: seq<Instr>, o: Env, m: State)
    requires Fetch(P, m, TestReg)
    ensures Step(P, o, m) ==
      m.(pc := m.pc + 1,
         flags := Some(Flags(Get(m.regs, RAX) == 0, false, Signed(Get(m.regs, RAX)) < 0)))
  {}

  lemma DoCmp(P: seq<Instr>, o: Env, m: State)
    requires Fetch(P, m, CmpReg)
    ensures Step(P, o, m) == m.(pc := m.pc + 1, flags := Some(Compare(Get(m.regs, RAX), Get(m.regs, RBX))))
  {}

  lemma DoCmpVar(P: seq<Instr>, o: Env, m: State, x: Name)
    requires Fetch(P, m, CmpVar(x)) && x in o.addr && Mapped(m.mem, o.addr[x])
    ensures Step(P, o, m)
         == m.(pc := m.pc + 1, flags := Some(Compare(Get(m.regs, RAX), Load(m.mem, o.addr[x]))))
  {}

  lemma DoMovbAl(P: seq<Instr>, o: Env, m: State, n: nat)
    requires Fetch(P, m, MovbAl(n))
    ensures Step(P, o, m) == SetReg(m, RAX, Get(m.regs, RAX) - Get(m.regs, RAX) % 256 + n % 256)
  {}

  lemma DoJmp(P: seq<Instr>, o: Env, m: State, l: Label, to: nat)
    requires Fetch(P, m, Jmp(l)) && UniqueLabels(P) && to < |P| && P[to] == Def(l)
    ensures Step(P, o, m) == m.(pc := to)
  {
    FindDefined(P, to, 0);
  }

  lemma DoJcc(P: seq<Instr>, o: Env, m: State, c: Cond, l: Label, to: nat)
    requires Fetch(P, m, Jcc(c, l)) && UniqueLabels(P) && to < |P| && P[to] == Def(l) && m.flags.Some?
    ensures Step(P, o, m) == m.(pc := if Holds(c, m.flags.value) then to else m.pc + 1)
  {
    FindDefined(P, to, 0);
  }

  lemma DoDef(P: seq<Instr>, o: Env, m: State, l: Label)
    requires Fetch(P, m, Def(l))
    ensures Step(P, o, m) == m.(pc := m.pc + 1)
  {}

  lemma DoFld(P: seq<Instr>, o: Env, m: State, k: nat, w: Word)
    requires Fetch(P, m, Fld(k)) && Depth(m.fpu) < 8
    requires m.stk.Cons? && (k == 0 ==> m.stk.top == w)
    requires k == 1 ==> m.stk.below.Cons? && m.stk.below.top == w
    requires k <= 1
    ensures Step(P, o, m) == m.(pc := m.pc + 1, fpu := Cons(w, m.fpu))
  {
    assert k == 1 ==> Drop(m.stk, 1) == Drop(m.stk.below, 0);
  }

  lemma DoFild(P: seq<Instr>, o: Env, m: State)
    requires Fetch(P, m, Fild) && m.stk.Cons? && Depth(m.fpu) < 8
    ensures Step(P, o, m) == m.(pc := m.pc + 1, fpu := Cons(o.fl.ofInt(Signed(m.stk.top)), m.fpu))
  {}

  lemma DoFstp(P: seq<Instr>, o: Env, m: State)
    requires Fetch(P, m, Fstp) && m.stk.Cons? && m.fpu.Cons?
    ensures Step(P, o, m) == m.(pc := m.pc + 1, fpu := m.fpu.below, stk := Cons(m.fpu.top, m.stk.below))
  {}

  lemma DoFistp(P: seq<Instr>, o: Env, m: State)
    requires Fetch(P, m, Fistp) && m.stk.Cons? && m.fpu.Cons?
    ensures Step(P, o, m)
         == m.(pc := m.pc + 1, fpu := m.fpu.below, stk := Cons(Indefinite(o.fl.toInt(m.fpu.top)), m.stk.below))
  {}

  lemma DoFarith(P: seq<Instr>, o: Env, m: State, op: BinOp)
    requires Fetch(P, m, Farith(op)) && m.fpu.Cons? && m.fpu.below.Cons?
    ensures Step(P, o, m)
         == m.(pc := m.pc + 1, fpu := Cons(o.fl.arith(op, m.fpu.top, m.fpu.below.top), m.fpu.below.below))
  {}

  lemma DoFcomip(P: seq<Instr>, o: Env, m: State)
    requires Fetch(P, m, Fcomip) && m.fpu.Cons? && m.fpu.below.Cons?
    ensures Step(P, o, m)
         == m.(pc := m.pc + 1, fpu := m.fpu.below,
               flags := Some(FloatFlags(o.fl.compare(m.fpu.top, m.fpu.below.top))))
  {}

  lemma DoFpopTop(P: seq<Instr>, o: Env, m: State)
    requires Fetch(P, m, FpopTop) && m.fpu.Cons?
    ensures Step(P, o, m) == m.(pc := m.pc + 1, fpu := m.fpu.below)
  {}

  lemma DoMovsdLoad(P: seq<Instr>, o: Env, m: State, i: nat)
    requires Fetch(P, m, MovsdLoad(i)) && m.stk.Cons?
    ensures Step(P, o, m) == SetReg(m, XMM(i), m.stk.top)
  {}

  lemma DoMovsdStore(P: seq<Instr>, o: Env, m: State)
    requires Fetch(P, m, MovsdStore) && m.stk.Cons?
    ensures Step(P, o, m) == m.(pc := m.pc + 1, stk := Cons(Get(m.regs, XMM(0)), m.stk.below))
  {}

  lemma DoPxor(P: seq<Instr>, o: Env, m: State, a: nat, b: nat)
    requires Fetch(P, m, Pxor(a, b))
    ensures Step(P, o, m) == SetReg(m, XMM(b), Bitwise(BitXor, Get(m.regs, XMM(b)), Get(m.regs, XMM(a))))
  {}

  lemma DoMoveRsp(P: seq<Instr>, o: Env, m: State, k: int)
    requires Fetch(P, m, AddRsp(k))
    ensures Step(P, o, m) == MoveRsp(o, m.(flags := None), m.rsp + k)
  {}

  lemma DoPop8(P: seq<Instr>, o: Env, m: State)
    requires Fetch(P, m, AddRsp(8)) && m.stk.Cons?
    ensures Step(P, o, m) == m.(pc := m.pc + 1, flags := None, stk := m.stk.below, rsp := m.rsp + 8)
  {
    hide Step;
    DoMoveRsp(P, o, m, 8);
    assert Drop(m.stk, 1) == Drop(m.stk.below, 0);
  }

  lemma DoPop16(P: seq<Instr>, o: Env, m: State)
    requires Fetch(P, m, AddRsp(16)) && m.stk.Cons? && m.stk.below.Cons?
    ensures Step(P, o, m) == m.(pc := m.pc + 1, flags := None, stk := m.stk.below.below, rsp := m.rsp + 16)
  {
    hide Step;
    DoMoveRsp(P, o, m, 16);
    assert Drop(m.stk, 2) == Drop(m.stk.below, 1);
    assert Drop(m.stk.below, 1) == Drop(m.stk.below.below, 0);
  }

  lemma DoReserve(P: seq<Instr>, o: Env, m: State)
    requires Fetch(P, m, AddRsp(-8))
    ensures Step(P, o, m)
         == m.(pc := m.pc + 1, flags := None, stk := Cons(o.junk(m.rsp - 8), m.stk), rsp := m.rsp - 8)
  {
    hide Step;
    DoMoveRsp(P, o, m, -8);
    var s := Cons(o.junk(m.rsp - 8), m.stk);
    assert Expose(o, m.stk, m.rsp, 1) == Expose(o, s, m.rsp - 8, 0);
  }

  lemma DoRspToRbp(P: seq<Instr>, o: Env, m: State)
    requires Fetch(P, m, RspToRbp)
    ensures Step(P, o, m) == m.(pc := m.pc + 1, rbp := m.rsp)
  {}

  lemma DoRbpToRsp(P: seq<Instr>, o: Env, m: State)
    requires Fetch(P, m, RbpToRsp)
    ensures Step(P, o, m) == MoveRsp(o, m, m.rbp)
  {}

  lemma DoRspToR12(P: seq<Instr>, o: Env, m: State)
    requires Fetch(P, m, RspToR12)
    ensures Step(P, o, m) == m.(pc := m.pc + 1, r12 := m.rsp)
  {}

  lemma DoAndR12(P: seq<Instr>, o: Env, m: State)
    requires Fetch(P, m, AndR12)
    ensures Step(P, o, m) == m.(pc := m.pc + 1, r12 := m.r12 % 16, flags := None)
  {}

  lemma DoAndRsp(P: seq<Instr>, o: Env, m: State)
    requires Fetch(P, m, AndRsp)
    ensures Step(P, o, m) == MoveRsp(o, m.(flags := None), m.rsp - m.rsp % 16)
  {}

  lemma DoOrR12(P: seq<Instr>, o: Env, m: State)
    requires Fetch(P, m, OrR12Rsp) && 0 <= m.r12 < 16
    ensures Step(P, o, m) == MoveRsp(o, m.(flags := None), OrNibble(m.rsp, m.r12))
  {}

  lemma DoCallForeign(P: seq<Instr>, o: Env, m: State, f: Name)
    requires Fetch(P, m, CallForeign(f)) && f in o.protos
    ensures Step(P, o, m) == DoCall(o, m, Called(f, ReadArgs(o.protos[f], m.regs, 0, 0)))
  {}

  lemma DoCallPrintf(P: seq<Instr>, o: Env, m: State)
    requires Fetch(P, m, CallPrintf) && PrintfEvent(o, m.regs).Some?
    ensures Step(P, o, m) == DoCall(o, m, PrintfEvent(o, m.regs).value)
  {}

  lemma DoRet(P: seq<Instr>, o: Env, m: State)
    requires Fetch(P, m, Ret) && m.stk.Cons?
    ensures Step(P, o, m) == m.(status := Returned(m.stk.top), stk := m.stk.below, rsp := m.rsp + 8)
  {}

  // ---------- what an instruction needs ----------

  /** Leaving the program, a jump to a label that is not there or on flags that no comparison has set, a pop
      from the empty stack and a call at an %rsp that is not 16-byte aligned: each of them is stuck. */
  lemma GetsStuck(P: seq<Instr>, o: Env, m: State)
    requires m.status == Running
    ensures !(0 <= m.pc < |P|) ==> Step(P, o, m).status == Stuck
    ensures 0 <= m.pc < |P| ==>
      && (P[m.pc].Jcc? && m.flags.None? ==> Step(P, o, m).status == Stuck)
      && (P[m.pc].Jmp? && (forall i :: 0 <= i < |P| ==> P[i] != Def(P[m.pc].l)) ==> Step(P, o, m).status == Stuck)
      && ((P[m.pc].PopReg? || P[m.pc].PopVar? || P[m.pc] == Ret) && m.stk == Empty ==> Step(P, o, m).status == Stuck)
      && ((P[m.pc].CallForeign? || P[m.pc] == CallPrintf) && m.rsp % 16 != 0 ==> Step(P, o, m).status == Stuck)
  {
    hide StepFrame, ReadVar, WriteVar, Load, Store, Mapped, Wrap;
    if 0 <= m.pc < |P| {
      AtFrame(P, o, m);
      FrameStuck(o, P[m.pc], m);
      if P[m.pc].Jmp? && forall i :: 0 <= i < |P| ==> P[i] != Def(P[m.pc].l) {
        NotFound(P, P[m.pc].l, 0);
      }
    }
  }

  lemma AtFrame(P: seq<Instr>, o: Env, m: State)
    requires m.status == Running && 0 <= m.pc < |P|
    ensures P[m.pc].CallForeign? || P[m.pc] == CallPrintf || P[m.pc] == Ret ==>
              Step(P, o, m) == StepFrame(o, P[m.pc], m)
  {
    hide StepFrame, ReadVar, WriteVar, Divide, FPush, Bitwise;
  }

  lemma FrameStuck(o: Env, i: Instr, m: State)
    ensures (i.CallForeign? || i == CallPrintf) && m.rsp % 16 != 0 ==> StepFrame(o, i, m).status == Stuck
    ensures i == Ret && m.stk == Empty ==> StepFrame(o, i, m).status == Stuck
  {
    hide MoveRsp, OrNibble, ReadArgs, PrintfEvent;
  }

  /** A load on the full x87 stack and an operation on too few of its words are stuck. */
  lemma GetsStuckOnFloats(P: seq<Instr>, o: Env, m: State)
    requires m.status == Running && 0 <= m.pc < |P|
    ensures (P[m.pc] == Fild || P[m.pc].Fld?) && Depth(m.fpu) >= 8 ==> Step(P, o, m).status == Stuck
    ensures (P[m.pc].Farith? || P[m.pc] == Fcomip) && (m.fpu == Empty || m.fpu.below == Empty) ==>
              Step(P, o, m).status == Stuck
    ensures (P[m.pc] == Fstp || P[m.pc] == Fistp || P[m.pc] == FpopTop) && m.fpu == Empty ==>
              Step(P, o, m).status == Stuck
  {
    hide StepFloat, Depth;
    AtFloat(P, o, m);
    var i := P[m.pc];
    if i == Fild || i.Fld? {
      LoadStuck(o, i, m);
    } else if i.Farith? || i == Fcomip {
      PairStuck(o, i, m);
    } else if i == Fstp || i == Fistp || i == FpopTop {
      PopStuck(o, i, m);
    }
  }

  lemma AtFloat(P: seq<Instr>, o: Env, m: State)
    requires m.status == Running && 0 <= m.pc < |P|
    ensures var i := P[m.pc];
      i == Fild || i.Fld? || i.Farith? || i == Fcomip || i == Fstp || i == Fistp || i == FpopTop ==>
        Step(P, o, m) == StepFloat(o, i, m)
  {
    hide StepFloat, ReadVar, WriteVar, Divide, Bitwise;
  }

  lemma LoadStuck(o: Env, i: Instr, m: State)
    requires i == Fild || i.Fld?
    ensures Depth(m.fpu) >= 8 ==> StepFloat(o, i, m).status == Stuck
  {
    hide StepFrame, Depth, Drop, Signed;
  }

  lemma PairStuck(o: Env, i: Instr, m: State)
    requires i.Farith? || i == Fcomip
    ensures m.fpu == Empty || m.fpu.below == Empty ==> StepFloat(o, i, m).status == Stuck
  {
    hide StepFrame, FloatFlags;
  }

  lemma PopStuck(o: Env, i: Instr, m: State)
    requires i == Fstp || i == Fistp || i == FpopTop
    ensures m.fpu == Empty ==> StepFloat(o, i, m).status == Stuck
  {
    hide StepFrame, Indefinite;
  }

  lemma {:induction false} NotFound(P: seq<Instr>, l: Label, from: nat)
    requires from <= |P| && forall i :: 0 <= i < |P| ==> P[i] != Def(l)
    ensures Find(P, l, from) == |P|
    decreases |P| - from
  {
    if from < |P| {
      NotFound(P, l, from + 1);
    }
  }

  /** A division by zero, or with a quotient of more than 64 bits, faults. */
  lemma GetsDivideError(P: seq<Instr>, o: Env, m: State)
    requires Fetch(P, m, DivReg)
    ensures var n: int := 0x1_0000_0000_0000_0000 * Get(m.regs, RDX) + Get(m.regs, RAX);
      Get(m.regs, RBX) == 0 || n / Get(m.regs, RBX) >= 0x1_0000_0000_0000_0000 ==>
        Step(P, o, m).status == Faulted(DivideError)
  {
    hide StepFloat;
    DoDiv(P, o, m);
  }

  /** An access to an address that is not mapped faults. */
  lemma GetsPageFault(P: seq<Instr>, o: Env, m: State)
    requires m.status == Running && 0 <= m.pc < |P|
    ensures (P[m.pc] == PushInd || P[m.pc] == MovInd) && !Mapped(m.mem, Get(m.regs, RAX)) ==>
              Step(P, o, m).status == Faulted(PageFault)
    ensures (P[m.pc].PushVar? || P[m.pc].CmpVar? || P[m.pc].IncVar?)
            && !(P[m.pc].x in o.addr && Mapped(m.mem, o.addr[P[m.pc].x])) ==>
              Step(P, o, m).status == Faulted(PageFault)
  {
    hide Bitwise, Wrap, Load, Store, Mapped, Signed, Compare, StepFloat, JumpTo, Divide, Not;
  }

  lemma RunNone(P: seq<Instr>, o: Env, m: State)
    ensures Run(P, o, m, 0) == m
  {}

  lemma Run1(P: seq<Instr>, o: Env, m: State)
    ensures Run(P, o, m, 1) == Step(P, o, m)
  {
    hide Step;
    assert Run(P, o, m, 1) == Run(P, o, Step(P, o, m), 0);
  }

  lemma Run2(P: seq<Instr>, o: Env, m: State)
    ensures Run(P, o, m, 2) == Step(P, o, Step(P, o, m))
  {
    hide Step;
    assert Run(P, o, m, 2) == Run(P, o, Step(P, o, m), 1);
  }

  lemma Run3(P: seq<Instr>, o: Env, m: State)
    ensures Run(P, o, m, 3) == Step(P, o, Step(P, o, Step(P, o, m)))
  {
    hide Step;
    Run2(P, o, Step(P, o, m));
    assert Run(P, o, m, 3) == Run(P, o, Step(P, o, m), 2);
  }

  lemma Run4(P: seq<Instr>, o: Env, m: State)
    ensures Run(P, o, m, 4) == Step(P, o, Step(P, o, Step(P, o, Step(P, o, m))))
  {
    hide Step;
    Run3(P, o, Step(P, o, m));
    assert Run(P, o, m, 4) == Run(P, o, Step(P, o, m), 3);
  }
}
