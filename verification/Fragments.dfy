/** What each emitted sequence does to the machine. */
module Fragments {
  import opened Words
  import opened Memory
  import opened Syntax
  import opened Typing
  import opened Machine
  import opened Emission
  import opened Semantics
  import opened Registers
  import opened Simulation
  import opened Steps

  /** The word a literal leaves on the stack, as written. */
  function LiteralEmitted(w: Word): Word {
    if w >= 0x1_0000_0000 then w else SignExtend32(w)
  }

  lemma LoadImmRuns(P: seq<Instr>, o: Env, m: State, w: Word) returns (n: nat)
    requires CodeAt(P, m.pc, LoadImm(w)) && m.status == Running
    ensures Reaches(P, o, m, n, |LoadImm(w)|, Cons(LiteralEmitted(w), m.stk), m.rsp - 8, m.trace, false, false)
  {
    hide Step, Run;
    var code := LoadImm(w);
    assert P[m.pc] == code[0];
    var m1 := Step(P, o, m);
    if w >= 0x1_0000_0000 {
      assert P[m.pc + 1] == code[1];
      DoMovImm(P, o, m, w, RAX);
      DoPushReg(P, o, m1, RAX);
      Run2(P, o, m);
      n := 2;
    } else {
      DoPushImm(P, o, m, w);
      n := 1;
      Run1(P, o, m);
    }
  }

  lemma PopIntsRuns(P: seq<Instr>, o: Env, m: State, a: Word, b: Word, rest: Stack)
    requires CodeAt(P, m.pc, POP_INTS) && m.status == Running && m.stk == Cons(b, Cons(a, rest))
    ensures Run(P, o, m, 2)
         == m.(pc := m.pc + 2, stk := rest, rsp := m.rsp + 16, regs := m.regs[RBX := b][RAX := a])
  {
    hide Step, Run;
    assert P[m.pc] == POP_INTS[0] && P[m.pc + 1] == POP_INTS[1];
    var m1 := Step(P, o, m);
    DoPopReg(P, o, m, RBX);
    DoPopReg(P, o, m1, RAX);
    Run2(P, o, m);
  }

  /** The word that an INTEGER or BOOLEAN sequence leaves on the stack, as written. */
  function IntEmitted(op: BinOp, a: Word, b: Word): Word
    requires op == OpDiv || op == OpMod ==> b != 0
  {
    match op
    case OpAdd => Wrap(a + b)
    case OpSub => Wrap(a - b)
    case OpMul => Wrap(a * b)
    case OpDiv => DivLess(a, b); a / b
    case OpMod => DivLess(a, b); a / b
    case OpOr => Bitwise(BitOr, a, b)
    case OpAnd => a
  }

  /** In numbers: sums and differences that do not fit are off by 2^64, and products keep their remainder. */
  lemma EmittedNumbers(a: Word, b: Word)
    ensures IntEmitted(OpAdd, a, b)
         == if a + b < 0x1_0000_0000_0000_0000 then a + b else a + b - 0x1_0000_0000_0000_0000
    ensures IntEmitted(OpSub, a, b) == if a >= b then a - b else a - b + 0x1_0000_0000_0000_0000
    ensures IntEmitted(OpMul, a, b) == (a * b) % 0x1_0000_0000_0000_0000
  {
    WrapOnce(a + b);
    WrapOnce(a - b);
  }

  function UsesDivider(op: BinOp): bool {
    op == OpMul || op == OpDiv || op == OpMod
  }

  /** An operation on %rax and %rbx that leaves its result in %rax, which is then pushed. */
  lemma AluRuns(P: seq<Instr>, o: Env, m: State, i: Instr, w: Word)
    requires CodeAt(P, m.pc, [i, PushReg(RAX)]) && m.status == Running
    requires Step(P, o, m) == SetArith(m, RAX, w)
    ensures Reaches(P, o, m, 2, 2, Cons(w, m.stk), m.rsp - 8, m.trace, false, false)
  {
    hide Step, Run;
    var m1 := Step(P, o, m);
    var code := [i, PushReg(RAX)];
    assert P[m.pc + 1] == code[1];
    DoPushReg(P, o, m1, RAX);
    Run2(P, o, m);
  }

  lemma MulRuns(P: seq<Instr>, o: Env, m: State)
    requires CodeAt(P, m.pc, IntOp(OpMul)) && m.status == Running
    ensures Reaches(P, o, m, 2, 2, Cons(Wrap(Get(m.regs, RAX) * Get(m.regs, RBX)), m.stk), m.rsp - 8, m.trace, false,
                    true)
    ensures Get(Run(P, o, m, 2).regs, RDX) == AfterInt(OpMul, Get(m.regs, RAX), Get(m.regs, RBX), RDX, 0)
  {
    hide Step, Run;
    var m1 := Step(P, o, m);
    var code := IntOp(OpMul);
    assert P[m.pc] == code[0] && P[m.pc + 1] == code[1];
    DoMul(P, o, m);
    DoPushReg(P, o, m1, RAX);
    Run2(P, o, m);
  }

  /** A dividend of one word cannot overflow the quotient. */
  lemma DivideWord(s: State, a: Word, b: Word)
    ensures b == 0 ==> Divide(s, a, 0, b) == Halt(s, Faulted(DivideError))
    ensures b != 0 ==> IntEmitted(OpDiv, a, b) == a / b
    ensures b != 0 ==>
              var regs := s.regs[RAX := IntEmitted(OpDiv, a, b)][RDX := a % b];
              Divide(s, a, 0, b) == s.(pc := s.pc + 1, flags := None, regs := regs)
  {
    if b != 0 {
      DivLess(a, b);
    }
  }

  lemma DivRuns(P: seq<Instr>, o: Env, m: State, a: Word, b: Word) returns (n: nat)
    requires CodeAt(P, m.pc, IntOp(OpDiv)) && m.status == Running
    requires Get(m.regs, RAX) == a && Get(m.regs, RBX) == b
    ensures b == 0 ==> Faults(P, o, m, n, DivisionByZero, m.trace)
    ensures b != 0 ==> Reaches(P, o, m, n, 3, Cons(IntEmitted(OpDiv, a, b), m.stk), m.rsp - 8, m.trace, false, true)
    ensures b != 0 ==> Get(Run(P, o, m, n).regs, RDX) == AfterInt(OpDiv, a, b, RDX, 0)
  {
    hide Step, Run, Divide, IntEmitted, KeepsRegs;
    DivideWord(Step(P, o, m), a, b);
    var m1 := Step(P, o, m);
    var m2 := Step(P, o, m1);
    var code := IntOp(OpDiv);
    assert P[m.pc] == code[0] && P[m.pc + 1] == code[1] && P[m.pc + 2] == code[2];
    DoMovImm(P, o, m, 0, RDX);
    DoDiv(P, o, m1);
    if b == 0 {
      Run2(P, o, m);
      n := 2;
    } else {
      DoPushReg(P, o, m2, RAX);
      Run3(P, o, m);
      n := 3;
      DividerKeeps(m.regs, IntEmitted(OpDiv, a, b), a % b);
    }
  }

  lemma DividerKeeps(regs: Regs, q: Word, r: Word)
    ensures KeepsRegs(false, true, regs, regs[RDX := 0][RAX := q][RDX := r])
  {}

  lemma IntOpRuns(P: seq<Instr>, o: Env, m: State, op: BinOp, a: Word, b: Word) returns (n: nat)
    requires CodeAt(P, m.pc, IntOp(op)) && m.status == Running && op != OpAnd
    requires Get(m.regs, RAX) == a && Get(m.regs, RBX) == b
    ensures (op == OpDiv || op == OpMod) && b == 0 ==> Faults(P, o, m, n, DivisionByZero, m.trace)
    ensures !((op == OpDiv || op == OpMod) && b == 0) ==>
              && Reaches(P, o, m, n, |IntOp(op)|, Cons(IntEmitted(op, a, b), m.stk), m.rsp - 8, m.trace, false,
                         UsesDivider(op))
              && (UsesDivider(op) ==> Get(Run(P, o, m, n).regs, RDX) == AfterInt(op, a, b, RDX, 0))
  {
    hide Step, Run;
    var code := IntOp(op);
    assert P[m.pc] == code[0];
    n := 2;
    match op
    case OpAdd => DoAdd(P, o, m); AluRuns(P, o, m, AddReg, Wrap(a + b));
    case OpSub => DoSub(P, o, m); AluRuns(P, o, m, SubReg, Wrap(a - b));
    case OpOr => DoOr(P, o, m); AluRuns(P, o, m, OrReg, Bitwise(BitOr, a, b));
    case OpMul => MulRuns(P, o, m);
    case OpDiv => n := DivRuns(P, o, m, a, b);
    case OpMod => n := DivRuns(P, o, m, a, b);
  }

  /** The `&&` sequence computes the conjunction in %rbx but pushes %rax. */
  lemma AndRuns(P: seq<Instr>, o: Env, m: State)
    requires CodeAt(P, m.pc, IntOp(OpAnd)) && m.status == Running
    ensures Reaches(P, o, m, 2, 2, Cons(Get(m.regs, RAX), m.stk), m.rsp - 8, m.trace, false, false)
  {
    hide Step, Run;
    var m1 := Step(P, o, m);
    var code := IntOp(OpAnd);
    assert P[m.pc] == code[0] && P[m.pc + 1] == code[1];
    DoAnd(P, o, m);
    DoPushReg(P, o, m1, RAX);
    Run2(P, o, m);
  }

  lemma AndEmitted(a: Word, b: Word)
    ensures IntEmitted(OpAnd, a, b) == a
  {}

  /** Every integer and Boolean operation as written, from its two operands on the stack. */
  lemma IntBinRuns(P: seq<Instr>, o: Env, m: State, op: BinOp, a: Word, b: Word, rest: Stack) returns (n: nat)
    requires CodeAt(P, m.pc, POP_INTS + IntOp(op)) && m.status == Running && m.stk == Cons(b, Cons(a, rest))
    ensures op == OpAdd && a + b < 0x1_0000_0000_0000_0000 ==> IntEmitted(op, a, b) == a + b
    ensures op == OpAdd && a + b >= 0x1_0000_0000_0000_0000 ==>
              IntEmitted(op, a, b) == a + b - 0x1_0000_0000_0000_0000
    ensures op == OpSub ==> IntEmitted(op, a, b) == if a >= b then a - b else a - b + 0x1_0000_0000_0000_0000
    ensures op == OpMul ==> IntEmitted(op, a, b) == (a * b) % 0x1_0000_0000_0000_0000
    ensures (op == OpDiv || op == OpMod) && b == 0 ==> Faults(P, o, m, n, DivisionByZero, m.trace)
    ensures !((op == OpDiv || op == OpMod) && b == 0) ==>
              && Reaches(P, o, m, n, |POP_INTS + IntOp(op)|, Cons(IntEmitted(op, a, b), rest), m.rsp + 8, m.trace,
                         false, UsesDivider(op))
              && (UsesDivider(op) ==> Get(Run(P, o, m, n).regs, RDX) == AfterInt(op, a, b, RDX, 0))
  {
    hide Step, Run, IntEmitted;
    EmittedNumbers(a, b);
    CodeSplit(P, m.pc, POP_INTS, IntOp(op));
    PopIntsRuns(P, o, m, a, b, rest);
    AndEmitted(a, b);
    var m2 := Run(P, o, m, 2);
    var k;
    if op == OpAnd {
      AndRuns(P, o, m2);
      k := 2;
    } else {
      k := IntOpRuns(P, o, m2, op, a, b);
    }
    n := 2 + k;
    RunPlus(P, o, m, 2, k);
  }

  lemma LoadDoublesRuns(P: seq<Instr>, o: Env, m: State, a: Word, b: Word, rest: Stack)
    requires CodeAt(P, m.pc, LOAD_DOUBLES) && m.status == Running && m.stk == Cons(b, Cons(a, rest))
    requires Depth(m.fpu) <= 6
    ensures Run(P, o, m, 3) ==
      m.(pc := m.pc + 3, stk := rest, rsp := m.rsp + 16, fpu := Cons(a, Cons(b, m.fpu)), flags := None)
  {
    hide Step, Run;
    var code := LOAD_DOUBLES;
    assert P[m.pc] == code[0] && P[m.pc + 1] == code[1] && P[m.pc + 2] == code[2];
    var m1 := Step(P, o, m);
    var m2 := Step(P, o, m1);
    DoFld(P, o, m, 0, b);
    DoFld(P, o, m1, 1, a);
    DoPop16(P, o, m2);
    Run3(P, o, m);
  }

  lemma StoreDoubleRuns(P: seq<Instr>, o: Env, m: State, w: Word, f: Stack)
    requires CodeAt(P, m.pc, STORE_DOUBLE) && m.status == Running && m.fpu == Cons(w, f)
    ensures Run(P, o, m, 2) == m.(pc := m.pc + 2, stk := Cons(w, m.stk), rsp := m.rsp - 8, fpu := f, flags := None)
  {
    hide Step, Run;
    var code := STORE_DOUBLE;
    assert P[m.pc] == code[0] && P[m.pc + 1] == code[1];
    var m1 := Step(P, o, m);
    DoReserve(P, o, m);
    DoFstp(P, o, m1);
    Run2(P, o, m);
  }

  lemma DoubleOpRuns(P: seq<Instr>, o: Env, m: State, op: BinOp, a: Word, b: Word, rest: Stack)
    requires CodeAt(P, m.pc, LOAD_DOUBLES + [Farith(op)] + STORE_DOUBLE)
    requires m.status == Running && m.stk == Cons(b, Cons(a, rest)) && Depth(m.fpu) <= 6
    ensures Reaches(P, o, m, 6, 6, Cons(o.fl.arith(op, a, b), rest), m.rsp + 8, m.trace, false, false)
  {
    hide Step, Run;
    CodeSplit(P, m.pc, LOAD_DOUBLES + [Farith(op)], STORE_DOUBLE);
    CodeSplit(P, m.pc, LOAD_DOUBLES, [Farith(op)]);
    LoadDoublesRuns(P, o, m, a, b, rest);
    var m3 := Run(P, o, m, 3);
    assert P[m.pc + 3] == [Farith(op)][0];
    DoFarith(P, o, m3, op);
    var m4 := Step(P, o, m3);
    StoreDoubleRuns(P, o, m4, o.fl.arith(op, a, b), m.fpu);
    RunPlus(P, o, m, 3, 3);
    RunPlus(P, o, m3, 1, 2);
    Run1(P, o, m3);
  }

  lemma XorSwap(P: seq<Instr>, o: Env, m: State)
    requires CodeAt(P, m.pc, SWAP_XMM) && m.status == Running
    ensures var m3 := Run(P, o, m, 3);
      && m3 == m.(pc := m.pc + 3, regs := m3.regs)
      && Get(m3.regs, XMM(0)) == Get(m.regs, XMM(1))
      && Get(m3.regs, XMM(1)) == Get(m.regs, XMM(0))
  {
    hide Step, Run;
    var code := SWAP_XMM;
    assert P[m.pc] == code[0] && P[m.pc + 1] == code[1] && P[m.pc + 2] == code[2];
    var m1 := Step(P, o, m);
    var m2 := Step(P, o, m1);
    DoPxor(P, o, m, 0, 1);
    DoPxor(P, o, m1, 1, 0);
    DoPxor(P, o, m2, 0, 1);
    Run3(P, o, m);
    XorCancels(Get(m.regs, XMM(1)), Get(m.regs, XMM(0)));
  }

  lemma AlignRuns(P: seq<Instr>, o: Env, m: State)
    requires CodeAt(P, m.pc, ALIGN) && m.status == Running && m.rsp % 8 == 0
    ensures Run(P, o, m, 3) ==
      m.(pc := m.pc + 3, flags := None, r12 := m.rsp % 16, rsp := m.rsp - m.rsp % 16,
         stk := if m.rsp % 16 == 0 then m.stk else Cons(o.junk(m.rsp - 8), m.stk))
  {
    hide Step, Run;
    var code := ALIGN;
    assert P[m.pc] == code[0] && P[m.pc + 1] == code[1] && P[m.pc + 2] == code[2];
    var m1 := Step(P, o, m);
    var m2 := Step(P, o, m1);
    DoRspToR12(P, o, m);
    DoAndR12(P, o, m1);
    DoAndRsp(P, o, m2);
    Run3(P, o, m);
    MoveDown(o, m2.(flags := None));
  }

  lemma MoveDown(o: Env, m: State)
    requires m.rsp % 8 == 0
    ensures MoveRsp(o, m, m.rsp - m.rsp % 16) ==
      m.(pc := m.pc + 1, rsp := m.rsp - m.rsp % 16,
         stk := if m.rsp % 16 == 0 then m.stk else Cons(o.junk(m.rsp - 8), m.stk))
  {
    if m.rsp % 16 == 0 {
      assert Drop(m.stk, 0) == Some(m.stk);
    } else {
      assert m.rsp % 16 == 8;
      var s := Cons(o.junk(m.rsp - 8), m.stk);
      assert Expose(o, m.stk, m.rsp, 1) == Expose(o, s, m.rsp - 8, 0);
    }
  }

  lemma MoveUp(o: Env, m: State, rest: Stack)
    requires m.rsp % 16 == 0
    requires m.r12 == 0 || m.r12 == 8
    requires m.r12 == 0 ==> m.stk == rest
    requires m.r12 == 8 ==> m.stk.Cons? && m.stk.below == rest
    ensures MoveRsp(o, m, OrNibble(m.rsp, m.r12)) == m.(pc := m.pc + 1, rsp := m.rsp + m.r12, stk := rest)
  {
    BitsZero(BitOr, m.r12);
    assert OrNibble(m.rsp, m.r12) == m.rsp + m.r12;
    if m.r12 == 8 {
      assert Drop(m.stk, 1) == Drop(m.stk.below, 0);
    }
  }

  /** The call itself and the unaligning, from the aligned state `m`. */
  lemma CallAndUnalign(P: seq<Instr>, o: Env, m: State, i: Instr, e: Event, rest: Stack)
    requires CodeAt(P, m.pc, [i, OrR12Rsp]) && m.status == Running && m.rsp % 16 == 0
    requires m.r12 == 0 || m.r12 == 8
    requires m.r12 == 0 ==> m.stk == rest
    requires m.r12 == 8 ==> m.stk.Cons? && m.stk.below == rest
    requires Step(P, o, m) == DoCall(o, m, e)
    ensures Run(P, o, m, 2) ==
      m.(pc := m.pc + 2, flags := None, stk := rest, rsp := m.rsp + m.r12, trace := m.trace + [e],
         regs := o.foreign(m.trace + [e])[RBX := Get(m.regs, RBX)])
  {
    hide Step, Run;
    var m1 := Step(P, o, m);
    assert P[m.pc + 1] == [i, OrR12Rsp][1];
    DoOrR12(P, o, m1);
    MoveUp(o, m1.(flags := None), rest);
    Run2(P, o, m);
  }

  /** Aligning, calling and unaligning: the call happens at a 16-byte aligned %rsp, and then
      %rsp and every live word are back, for either residue of %rsp. */
  lemma AlignedCallRuns(P: seq<Instr>, o: Env, m: State, i: Instr, e: Event)
    requires CodeAt(P, m.pc, AlignedCall(i)) && m.status == Running && m.rsp % 8 == 0
    requires Step(P, o, Run(P, o, m, 3)) == DoCall(o, Run(P, o, m, 3), e)
    ensures Run(P, o, m, 3).pc == m.pc + 3 && Run(P, o, m, 3).rsp % 16 == 0
    ensures Run(P, o, m, 5) ==
      m.(pc := m.pc + 5, flags := None, r12 := m.rsp % 16, trace := m.trace + [e],
         regs := o.foreign(m.trace + [e])[RBX := Get(m.regs, RBX)])
  {
    hide Step, Run;
    CodeSplit(P, m.pc, ALIGN, [i, OrR12Rsp]);
    Residue(m.rsp);
    AlignRuns(P, o, m);
    CallAndUnalign(P, o, Run(P, o, m, 3), i, e, m.stk);
    RunPlus(P, o, m, 3, 2);
  }

  lemma ForeignCallRuns(P: seq<Instr>, o: Env, m: State, f: Name)
    requires CodeAt(P, m.pc, AlignedCall(CallForeign(f))) && m.status == Running && m.rsp % 8 == 0
    requires f in o.protos
    ensures var tr := m.trace + [Called(f, ReadArgs(o.protos[f], m.regs, 0, 0))];
      Run(P, o, m, 5)
        == m.(pc := m.pc + 5, flags := None, r12 := m.rsp % 16, trace := tr,
              regs := o.foreign(tr)[RBX := Get(m.regs, RBX)])
  {
    hide Step, Run;
    var i := CallForeign(f);
    CodeSplit(P, m.pc, ALIGN, [i, OrR12Rsp]);
    AlignRuns(P, o, m);
    var m3 := Run(P, o, m, 3);
    assert P[m.pc + 3] == [i, OrR12Rsp][0];
    DoCallForeign(P, o, m3, f);
    AlignedCallRuns(P, o, m, i, Called(f, ReadArgs(o.protos[f], m.regs, 0, 0)));
  }

  /** The word a call leaves on the stack. */
  function ResultWord(o: Env, tr: Trace, t: Ty): Word {
    Get(o.foreign(tr), if t.TDouble? then XMM(0) else RAX)
  }

  lemma PushResultRuns(P: seq<Instr>, o: Env, m: State, ret: Option<Ty>)
    requires CodeAt(P, m.pc, PushResult(ret)) && m.status == Running
    ensures var n := |PushResult(ret)|;
      && Reaches(P, o, m, n, n,
                if ret.None? then m.stk else Cons(Get(m.regs, if ret.value.TDouble? then XMM(0) else RAX), m.stk),
                if ret.None? then m.rsp else m.rsp - 8, m.trace, false, false)
  {
    hide Step, Run;
    var code := PushResult(ret);
    if ret.Some? {
      var m1 := Step(P, o, m);
      assert P[m.pc] == code[0];
      if ret.value.TDouble? {
        assert P[m.pc + 1] == code[1];
        DoReserve(P, o, m);
        DoMovsdStore(P, o, m1);
        Run2(P, o, m);
      } else {
        DoPushReg(P, o, m, RAX);
        Run1(P, o, m);
      }
    } else {
      RunNone(P, o, m);
    }
  }

  lemma FinishCallRuns(P: seq<Instr>, o: Env, m: State, f: Name, ret: Option<Ty>) returns (n: nat)
    requires CodeAt(P, m.pc, FinishCall(f, ret)) && m.status == Running && m.rsp % 8 == 0
    requires f in o.protos
    ensures var tr := m.trace + [Called(f, ReadArgs(o.protos[f], m.regs, 0, 0))];
      && Reaches(P, o, m, n, |FinishCall(f, ret)|,
                 if ret.None? then m.stk else Cons(ResultWord(o, tr, ret.value), m.stk),
                 if ret.None? then m.rsp else m.rsp - 8, tr, true, true)
      && LeftBy(o, tr, Run(P, o, m, n).regs)
  {
    hide Step, Run;
    CodeSplit(P, m.pc, AlignedCall(CallForeign(f)), PushResult(ret));
    ForeignCallRuns(P, o, m, f);
    PushResultRuns(P, o, Run(P, o, m, 5), ret);
    n := 5 + |PushResult(ret)|;
    RunPlus(P, o, m, 5, |PushResult(ret)|);
  }

  lemma PopBoolRuns(P: seq<Instr>, o: Env, m: State, b: bool, r: Reg, rest: Stack)
    requires CodeAt(P, m.pc, [PopReg(r), AndOne(r)]) && m.status == Running && m.stk == Cons(Truth(b), rest)
    ensures Run(P, o, m, 2)
         == m.(pc := m.pc + 2, stk := rest, rsp := m.rsp + 8, flags := None, regs := m.regs[r := if b then 1 else 0])
  {
    hide Step, Run, Bitwise;
    TwoAt(P, m.pc, PopReg(r), AndOne(r));
    var m1 := Step(P, o, m);
    DoPopReg(P, o, m, r);
    DoAndOne(P, o, m1, r);
    TruthBit(b);
    Run2(P, o, m);
    assert m.regs[r := Truth(b)][r := if b then 1 else 0] == m.regs[r := if b then 1 else 0];
  }

  lemma PopDoubleRuns(P: seq<Instr>, o: Env, m: State, w: Word, fi: nat, rest: Stack)
    requires CodeAt(P, m.pc, [MovsdLoad(fi), AddRsp(8)]) && m.status == Running && m.stk == Cons(w, rest)
    ensures Run(P, o, m, 2)
         == m.(pc := m.pc + 2, stk := rest, rsp := m.rsp + 8, flags := None, regs := m.regs[XMM(fi) := w])
  {
    hide Step, Run;
    TwoAt(P, m.pc, MovsdLoad(fi), AddRsp(8));
    var m1 := Step(P, o, m);
    DoMovsdLoad(P, o, m, fi);
    DoPop8(P, o, m1);
    Run2(P, o, m);
  }

  /** Passing one argument: it leaves the stack for its register; BOOLEAN becomes 0 or 1. */
  lemma PopArgRuns(P: seq<Instr>, o: Env, m: State, v: Value, t: Ty, ri: nat, fi: nat, rest: Stack)
    requires CodeAt(P, m.pc, PopArg(t, ri, fi)) && m.status == Running
    requires m.stk == Cons(Enc(o, v), rest) && !v.VPtr?
    requires t.TBool? <==> v.VBool?
    ensures var m' := Run(P, o, m, |PopArg(t, ri, fi)|);
      m' == m.(pc := m.pc + |PopArg(t, ri, fi)|, stk := rest, rsp := m.rsp + 8,
               flags := m'.flags, regs := m.regs[ArgTarget(t, ri, fi) := ArgWord(v)])
  {
    hide Step, Run;
    if t.TBool? {
      PopBoolRuns(P, o, m, v.b, IntReg(ri), rest);
    } else if t.TDouble? {
      PopDoubleRuns(P, o, m, Enc(o, v), fi, rest);
    } else {
      OneAt(P, m.pc, PopReg(IntReg(ri)));
      DoPopReg(P, o, m, IntReg(ri));
      Run1(P, o, m);
    }
  }

  lemma PopTwoDoubles(P: seq<Instr>, o: Env, m: State, a: Word, b: Word, rest: Stack)
    requires CodeAt(P, m.pc, PopArg(TDouble, 0, 0) + PopArg(TDouble, 0, 1)) && m.status == Running
    requires m.stk == Cons(b, Cons(a, rest))
    ensures var m4 := Run(P, o, m, 4);
      m4 == m.(pc := m.pc + 4, stk := rest, rsp := m.rsp + 16, flags := m4.flags,
               regs := m.regs[XMM(0) := b][XMM(1) := a])
  {
    hide Step, Run;
    CodeSplit(P, m.pc, PopArg(TDouble, 0, 0), PopArg(TDouble, 0, 1));
    PopArgRuns(P, o, m, VDouble(b), TDouble, 0, 0, Cons(a, rest));
    PopArgRuns(P, o, Run(P, o, m, 2), VDouble(a), TDouble, 0, 1, rest);
    RunPlus(P, o, m, 2, 2);
  }

  /** DOUBLE `%`: the operands are popped in the wrong order, swapped, and passed to fmod. */
  lemma FmodRuns(P: seq<Instr>, o: Env, m: State, a: Word, b: Word, rest: Stack) returns (n: nat)
    requires CodeAt(P, m.pc, FMOD_CODE) && m.status == Running && m.rsp % 8 == 0
    requires m.stk == Cons(b, Cons(a, rest)) && FMOD in o.protos && o.protos[FMOD] == [true, true]
    ensures var tr := m.trace + [Called(FMOD, [a, b])];
      && Reaches(P, o, m, n, |FMOD_CODE|, Cons(Get(o.foreign(tr), XMM(0)), rest), m.rsp + 8, tr, true, true)
      && LeftBy(o, tr, Run(P, o, m, n).regs)
  {
    hide Step, Run, FinishCall, ReadArgs, LeftBy, Bitwise;
    var p, f := PopArg(TDouble, 0, 0) + PopArg(TDouble, 0, 1), FinishCall(FMOD, Some(TDouble));
    CodeSplit(P, m.pc, p + SWAP_XMM, f);
    CodeSplit(P, m.pc, p, SWAP_XMM);
    PopTwoDoubles(P, o, m, a, b, rest);
    var m4 := Run(P, o, m, 4);
    XorSwap(P, o, m4);
    var m7 := Run(P, o, m4, 3);
    ReadTwoDoubles(m7.regs);
    var k := FinishCallRuns(P, o, m7, FMOD, Some(TDouble));
    n := 7 + k;
    RunPlus(P, o, m, 4, 3 + k);
    RunPlus(P, o, m4, 3, k);
  }

  lemma ReadTwoDoubles(regs: Regs)
    ensures ReadArgs([true, true], regs, 0, 0) == [Get(regs, XMM(0)), Get(regs, XMM(1))]
  {
    var p := [true, true];
    assert p[1..] == [true] && [true][1..] == [];
    assert ReadArgs([true], regs, 0, 1) == [Get(regs, XMM(1))] + ReadArgs([], regs, 0, 2);
    assert ReadArgs(p, regs, 0, 0) == [Get(regs, XMM(0))] + ReadArgs(p[1..], regs, 0, 1);
  }

  /** From condition flags to a Boolean word, through two forward jumps. */
  lemma MaterialiseRuns(P: seq<Instr>, o: Env, m: State, c: Cond, tag: nat) returns (n: nat)
    requires CodeAt(P, m.pc, Materialise(c, tag)) && m.status == Running && UniqueLabels(P) && m.flags.Some?
    ensures Reaches(P, o, m, n, 6, Cons(Truth(Holds(c, m.flags.value)), m.stk), m.rsp - 8, m.trace, false, false)
  {
    hide Step, Run;
    var code := Materialise(c, tag);
    assert P[m.pc] == code[0] && P[m.pc + 1] == code[1] && P[m.pc + 2] == code[2];
    assert P[m.pc + 3] == code[3] && P[m.pc + 4] == code[4] && P[m.pc + 5] == code[5];
    var m1 := Step(P, o, m);
    DoJcc(P, o, m, c, LTrue(tag), m.pc + 3);
    var m2 := Step(P, o, m1);
    var m3 := Step(P, o, m2);
    if Holds(c, m.flags.value) {
      DoDef(P, o, m1, LTrue(tag));
      DoPushImm(P, o, m2, ONES);
    } else {
      DoPushImm(P, o, m1, 0);
      DoJmp(P, o, m2, LNext(tag), m.pc + 5);
    }
    DoDef(P, o, m3, LNext(tag));
    Run4(P, o, m);
    n := 4;
  }

  lemma IntRelRuns(P: seq<Instr>, o: Env, m: State, op: RelOp, tag: nat, a: Word, b: Word, rest: Stack) returns (n: nat)
    requires CodeAt(P, m.pc, POP_INTS + [CmpReg] + Materialise(JumpCond(op), tag)) && UniqueLabels(P)
    requires m.status == Running && m.stk == Cons(b, Cons(a, rest))
    ensures Reaches(P, o, m, n, 9, Cons(Truth(RelInt(op, a, b)), rest), m.rsp + 8, m.trace, false, false)
  {
    hide Step, Run;
    CodeSplit(P, m.pc, POP_INTS + [CmpReg], Materialise(JumpCond(op), tag));
    CodeSplit(P, m.pc, POP_INTS, [CmpReg]);
    PopIntsRuns(P, o, m, a, b, rest);
    var m2 := Run(P, o, m, 2);
    assert P[m.pc + 2] == [CmpReg][0];
    DoCmp(P, o, m2);
    var m3 := Step(P, o, m2);
    var k := MaterialiseRuns(P, o, m3, JumpCond(op), tag);
    n := 3 + k;
    RunPlus(P, o, m, 2, 1 + k);
    RunPlus(P, o, m2, 1, k);
    Run1(P, o, m2);
  }

  lemma FloatCompareRuns(P: seq<Instr>, o: Env, m: State, a: Word, b: Word, rest: Stack)
    requires CodeAt(P, m.pc, LOAD_DOUBLES + [Fcomip, FpopTop]) && m.status == Running && Depth(m.fpu) <= 6
    requires m.stk == Cons(b, Cons(a, rest))
    ensures Run(P, o, m, 5) ==
      m.(pc := m.pc + 5, stk := rest, rsp := m.rsp + 16, flags := Some(FloatFlags(o.fl.compare(a, b))))
  {
    hide Step, Run;
    CodeSplit(P, m.pc, LOAD_DOUBLES, [Fcomip, FpopTop]);
    LoadDoublesRuns(P, o, m, a, b, rest);
    var m3 := Run(P, o, m, 3);
    var code := [Fcomip, FpopTop];
    assert P[m.pc + 3] == code[0] && P[m.pc + 4] == code[1];
    var m4 := Step(P, o, m3);
    DoFcomip(P, o, m3);
    DoFpopTop(P, o, m4);
    RunPlus(P, o, m, 3, 2);
    Run2(P, o, m3);
  }

  lemma FloatRelRuns(P: seq<Instr>, o: Env, m: State, op: RelOp, tag: nat, a: Word, b: Word, rest: Stack)
    returns (n: nat)
    requires CodeAt(P, m.pc, LOAD_DOUBLES + [Fcomip, FpopTop] + Materialise(JumpCond(op), tag)) && UniqueLabels(P)
    requires m.status == Running && m.stk == Cons(b, Cons(a, rest)) && Depth(m.fpu) <= 6
    ensures Reaches(P, o, m, n, 11, Cons(Truth(Holds(JumpCond(op), FloatFlags(o.fl.compare(a, b)))), rest),
                    m.rsp + 8, m.trace, false, false)
  {
    hide Step, Run;
    CodeSplit(P, m.pc, LOAD_DOUBLES + [Fcomip, FpopTop], Materialise(JumpCond(op), tag));
    FloatCompareRuns(P, o, m, a, b, rest);
    var m5 := Run(P, o, m, 5);
    var k := MaterialiseRuns(P, o, m5, JumpCond(op), tag);
    n := 5 + k;
    RunPlus(P, o, m, 5, k);
  }

  lemma ToDoubleRuns(P: seq<Instr>, o: Env, m: State, w: Word, rest: Stack)
    requires CodeAt(P, m.pc, [Fild, Fstp]) && m.status == Running && m.stk == Cons(w, rest) && Depth(m.fpu) <= 6
    ensures Reaches(P, o, m, 2, 2, Cons(o.fl.ofInt(Signed(w)), rest), m.rsp, m.trace, false, false)
  {
    hide Step, Run;
    var code := [Fild, Fstp];
    assert P[m.pc] == code[0] && P[m.pc + 1] == code[1];
    var m1 := Step(P, o, m);
    DoFild(P, o, m);
    DoFstp(P, o, m1);
    Run2(P, o, m);
  }

  lemma ToIntegerRuns(P: seq<Instr>, o: Env, m: State, w: Word, rest: Stack)
    requires CodeAt(P, m.pc, [Fld(0), Fistp]) && m.status == Running && m.stk == Cons(w, rest) && Depth(m.fpu) <= 6
    ensures Reaches(P, o, m, 2, 2, Cons(Indefinite(o.fl.toInt(w)), rest), m.rsp, m.trace, false, false)
  {
    hide Step, Run;
    var code := [Fld(0), Fistp];
    assert P[m.pc] == code[0] && P[m.pc + 1] == code[1];
    var m1 := Step(P, o, m);
    DoFld(P, o, m, 0, w);
    DoFistp(P, o, m1);
    Run2(P, o, m);
  }

  lemma NotRuns(P: seq<Instr>, o: Env, m: State, b: bool, rest: Stack)
    requires CodeAt(P, m.pc, [NotTop]) && m.status == Running && m.stk == Cons(Truth(b), rest)
    ensures Reaches(P, o, m, 1, 1, Cons(Truth(!b), rest), m.rsp, m.trace, false, false)
  {
    hide Step, Run;
    var code := [NotTop];
    assert P[m.pc] == code[0];
    DoNot(P, o, m);
    Run1(P, o, m);
  }

  /** One dereference: the pointed-to word replaces the pointer, or null faults. */
  lemma LoadPointedRuns(P: seq<Instr>, o: Env, m: State, p: Word, rest: Stack)
    requires CodeAt(P, m.pc, LOAD_POINTED) && m.status == Running && m.stk == Cons(p, rest)
    ensures Mapped(m.mem, p) ==>
              Reaches(P, o, m, 2, 2, Cons(Load(m.mem, p), rest), m.rsp, m.trace, false, false)
    ensures p == 0 && !Mapped(m.mem, 0) ==> Faults(P, o, m, 2, NullDereference, m.trace)
  {
    hide Step, Run;
    var code := LOAD_POINTED;
    assert P[m.pc] == code[0] && P[m.pc + 1] == code[1];
    var m1 := Step(P, o, m);
    DoPopReg(P, o, m, RAX);
    DoPushInd(P, o, m1);
    Run2(P, o, m);
  }

  /** The exit test of IF and WHILE. */
  lemma BranchRuns(P: seq<Instr>, o: Env, m: State, l: Label, b: bool, rest: Stack, to: nat)
    requires CodeAt(P, m.pc, Branch(l)) && m.status == Running && m.stk == Cons(Truth(b), rest)
    requires UniqueLabels(P) && to < |P| && P[to] == Def(l)
    ensures var m3 := Run(P, o, m, 3);
      m3 == m.(pc := if b then m.pc + 3 else to, stk := rest, rsp := m.rsp + 8,
               flags := m3.flags, regs := m.regs[RAX := Truth(b)])
  {
    hide Step, Run;
    var code := Branch(l);
    assert P[m.pc] == code[0] && P[m.pc + 1] == code[1] && P[m.pc + 2] == code[2];
    var m1 := Step(P, o, m);
    var m2 := Step(P, o, m1);
    DoPopReg(P, o, m, RAX);
    DoTest(P, o, m1);
    DoJcc(P, o, m2, Z, l, to);
    Run3(P, o, m);
  }
}
