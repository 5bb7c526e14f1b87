/** The part of x86-64 that the emitter uses, as a deterministic step machine. */
module Machine {
  import opened Words
  import opened Memory
  import opened Syntax
  import opened Typing

  datatype Format = FmtUnsigned | FmtChar | FmtFloat

  /** What the outside world sees: printf from DISPLAY, and calls of foreign functions. */
  datatype Event = Printed(fmt: Format, w: Word) | Called(f: Name, args: seq<Word>)
  type Trace = seq<Event>

  datatype Reg = RAX | RBX | RCX | RDX | RSI | RDI | R8 | R9 | XMM(i: nat)
  type Regs = map<Reg, Word>

  function Get(m: Regs, r: Reg): Word {
    if r in m then m[r] else 0
  }

  datatype Ordering = Less | Same | Greater | Unordered

  /** DOUBLE operations, uninterpreted: words in, words out. */
  datatype FloatOps = FloatOps(
    arith: (BinOp, Word, Word) -> Word,
    compare: (Word, Word) -> Ordering,
    ofInt: int -> Word,
    toInt: Word -> int)

  /** Everything a program is linked against: where its globals and format strings live, the
      C functions (what every caller-saved register holds after a call, as a function of the
      trace up to and including that call) and which arguments each of them reads. */
  datatype Env = Env(
    addr: map<Name, Word>,
    format: map<Format, Word>,
    protos: map<Name, seq<bool>>,
    foreign: Trace -> Regs,
    fl: FloatOps,
    junk: int -> Word)

  datatype Label = LTrue(tag: nat) | LFalse(tag: nat) | LNext(tag: nat) | LWhile(tag: nat) | LFor(tag: nat)

  datatype Cond = E | NE | AE | BE | A | B | L | Z

  datatype Instr =
    | PushVar(x: Name) | PushImm(v: Word) | PushReg(r: Reg) | PushInd
    | PopReg(r: Reg) | PopVar(x: Name)
    | MovImm(v: Word, r: Reg) | MovInd | LeaVar(x: Name) | LeaFormat(fmt: Format, r: Reg)
    | AddReg | SubReg | OrReg | AndReg | MulReg | DivReg | NotTop
    | AndOne(r: Reg) | IncVar(x: Name)
    | TestReg | CmpReg | CmpVar(x: Name)
    | Jcc(c: Cond, l: Label) | Jmp(l: Label) | Def(l: Label)
    | Fld(words: nat) | Fild | Fstp | Fistp | Farith(op: BinOp) | Fcomip | FpopTop
    | MovsdLoad(i: nat) | MovsdStore | Pxor(src: nat, dst: nat)
    | AddRsp(k: int) | RspToRbp | RbpToRsp | RspToR12 | AndR12 | AndRsp | OrR12Rsp
    | MovbAl(n: nat) | CallPrintf | CallForeign(f: Name) | Ret

  datatype Stack = Empty | Cons(top: Word, below: Stack)

  datatype Flags = Flags(zf: bool, cf: bool, lt: bool)

  datatype FaultKind = DivideError | PageFault
  datatype Status = Running | Faulted(k: FaultKind) | Returned(to: Word) | Stuck

  datatype State = State(
    pc: int, regs: Regs, flags: Option<Flags>,
    stk: Stack, rsp: int, rbp: int, r12: int,
    fpu: Stack, mem: Mem, trace: Trace, status: Status)

  function Depth(s: Stack): nat {
    if s.Empty? then 0 else 1 + Depth(s.below)
  }

  function Halt(s: State, st: Status): State {
    s.(status := st)
  }

  function Next(s: State): State {
    s.(pc := s.pc + 1)
  }

  function SetReg(s: State, r: Reg, w: Word): State {
    s.(pc := s.pc + 1, regs := s.regs[r := w])
  }

  /** As SetReg, for an arithmetic instruction: the condition flags no longer hold a comparison. */
  function SetArith(s: State, r: Reg, w: Word): State {
    s.(pc := s.pc + 1, regs := s.regs[r := w], flags := None)
  }

  function Push(s: State, w: Word): State {
    s.(pc := s.pc + 1, stk := Cons(w, s.stk), rsp := s.rsp - 8)
  }

  function Drop(s: Stack, n: nat): Option<Stack> {
    if n == 0 then Some(s) else if s.Empty? then None else Drop(s.below, n - 1)
  }

  /** Lowering %rsp exposes whatever words the memory below it held. */
  function Expose(o: Env, s: Stack, rsp: int, n: nat): Stack
    decreases n
  {
    if n == 0 then s else Expose(o, Cons(o.junk(rsp - 8), s), rsp - 8, n - 1)
  }

  /** Any instruction that writes %rsp: the stack grows or shrinks by whole words. */
  function MoveRsp(o: Env, s: State, rsp: int): State {
    if (rsp - s.rsp) % 8 != 0 then Halt(s, Stuck)
    else if rsp >= s.rsp then
      match Drop(s.stk, (rsp - s.rsp) / 8)
      case None => Halt(s, Stuck)
      case Some(t) => s.(pc := s.pc + 1, stk := t, rsp := rsp)
    else s.(pc := s.pc + 1, stk := Expose(o, s.stk, s.rsp, (s.rsp - rsp) / 8), rsp := rsp)
  }

  /** OR with a number below 16 only touches the low four bits. */
  function OrNibble(rsp: int, low: nat): int {
    rsp - rsp % 16 + Bits(BitOr, rsp % 16, low)
  }

  /** The position of the definition of a label. */
  function Find(P: seq<Instr>, l: Label, from: nat): nat
    requires from <= |P|
    decreases |P| - from
  {
    if from == |P| || P[from] == Def(l) then from else Find(P, l, from + 1)
  }

  function JumpTo(P: seq<Instr>, s: State, l: Label): State {
    if Find(P, l, 0) < |P| then s.(pc := Find(P, l, 0)) else Halt(s, Stuck)
  }

  predicate Holds(c: Cond, f: Flags) {
    match c
    case E => f.zf
    case Z => f.zf
    case NE => !f.zf
    case AE => !f.cf
    case BE => f.cf || f.zf
    case A => !f.cf && !f.zf
    case B => f.cf
    case L => f.lt
  }

  /** `cmpq b, a` sets the flags of a - b. */
  function Compare(a: Word, b: Word): Flags {
    Flags(a == b, a < b, Signed(a) < Signed(b))
  }

  /** `fcomip` compares st(0) with st(1); an unordered pair raises both ZF and CF. */
  function FloatFlags(c: Ordering): Flags {
    Flags(c.Same? || c.Unordered?, c.Less? || c.Unordered?, false)
  }

  /** `fistpq`: out of signed range, the integer-indefinite value. */
  function Indefinite(i: int): Word {
    if -0x8000_0000_0000_0000 <= i < 0x8000_0000_0000_0000 then Wrap(i) else HALF
  }

  /** Section 3.2.3 of the System V AMD64 ABI: the registers of the regular arguments. */
  function IntReg(i: nat): Reg {
    if i == 0 then RDI else if i == 1 then RSI else if i == 2 then RDX
    else if i == 3 then RCX else if i == 4 then R8 else R9
  }

  /** What a C function with the given prototype (true for a DOUBLE parameter) reads. */
  function ReadArgs(proto: seq<bool>, regs: Regs, ri: nat, fi: nat): seq<Word> {
    if proto == [] then []
    else if proto[0] then [Get(regs, XMM(fi))] + ReadArgs(proto[1..], regs, ri, fi + 1)
    else [Get(regs, IntReg(ri))] + ReadArgs(proto[1..], regs, ri + 1, fi)
  }

  /** A call returns with %rbx, %rbp, %rsp and %r12 as they were and every other register
      as the callee left it. The ABI requires a 16-byte aligned %rsp at the call. */
  function DoCall(o: Env, s: State, e: Event): State {
    if s.rsp % 16 != 0 then Halt(s, Stuck)
    else s.(pc := s.pc + 1, flags := None, trace := s.trace + [e],
            regs := o.foreign(s.trace + [e])[RBX := Get(s.regs, RBX)])
  }

  function PrintfEvent(o: Env, regs: Regs): Option<Event> {
    var fmt := Get(regs, RDI);
    if o.format.Keys != {FmtUnsigned, FmtChar, FmtFloat} then None
    else if fmt == o.format[FmtUnsigned] then Some(Printed(FmtUnsigned, Get(regs, RSI)))
    else if fmt == o.format[FmtChar] then Some(Printed(FmtChar, Get(regs, RSI)))
    else if fmt == o.format[FmtFloat] && Get(regs, RAX) % 256 > 0 then
      Some(Printed(FmtFloat, Get(regs, XMM(0))))
    else None
  }

  function Divide(s: State, rax: Word, rdx: Word, rbx: Word): State {
    var n := rdx * 0x1_0000_0000_0000_0000 + rax;
    if rbx == 0 || n / rbx >= 0x1_0000_0000_0000_0000 then Halt(s, Faulted(DivideError))
    else s.(pc := s.pc + 1, flags := None, regs := s.regs[RAX := n / rbx][RDX := n % rbx])
  }

  function ReadVar(o: Env, s: State, x: Name): Option<Word> {
    if x in o.addr && Mapped(s.mem, o.addr[x]) then Some(Load(s.mem, o.addr[x])) else None
  }

  function WriteVar(o: Env, s: State, x: Name, w: Word): State {
    if x in o.addr && Mapped(s.mem, o.addr[x])
    then s.(pc := s.pc + 1, mem := Store(s.mem, o.addr[x], w))
    else Halt(s, Faulted(PageFault))
  }

  function StepData(o: Env, i: Instr, s: State): State {
    match i
    case PushVar(x) =>
      (match ReadVar(o, s, x) case None => Halt(s, Faulted(PageFault)) case Some(w) => Push(s, w))
    case PushImm(v) => Push(s, SignExtend32(v))
    case PushReg(r) => Push(s, Get(s.regs, r))
    case PushInd =>
      if Mapped(s.mem, Get(s.regs, RAX)) then Push(s, Load(s.mem, Get(s.regs, RAX)))
      else Halt(s, Faulted(PageFault))
    case PopReg(r) =>
      if s.stk.Empty? then Halt(s, Stuck)
      else SetReg(s, r, s.stk.top).(stk := s.stk.below, rsp := s.rsp + 8)
    case PopVar(x) =>
      if s.stk.Empty? then Halt(s, Stuck)
      else WriteVar(o, s.(stk := s.stk.below, rsp := s.rsp + 8), x, s.stk.top)
    case MovImm(v, r) => SetReg(s, r, v)
    case MovInd =>
      if Mapped(s.mem, Get(s.regs, RAX))
      then s.(pc := s.pc + 1, mem := Store(s.mem, Get(s.regs, RAX), Get(s.regs, RBX)))
      else Halt(s, Faulted(PageFault))
    case LeaVar(x) => if x in o.addr then SetReg(s, RAX, o.addr[x]) else Halt(s, Stuck)
    case LeaFormat(f, r) => if f in o.format then SetReg(s, r, o.format[f]) else Halt(s, Stuck)
    case IncVar(x) =>
      (match ReadVar(o, s, x)
       case None => Halt(s, Faulted(PageFault))
       case Some(w) => WriteVar(o, s.(flags := None), x, Wrap(w + 1)))
    case _ => StepAlu(o, i, s)
  }

  function StepAlu(o: Env, i: Instr, s: State): State {
    var rax, rbx := Get(s.regs, RAX), Get(s.regs, RBX);
    match i
    case AddReg => SetArith(s, RAX, Wrap(rax + rbx))
    case SubReg => SetArith(s, RAX, Wrap(rax - rbx))
    case OrReg => SetArith(s, RAX, Bitwise(BitOr, rax, rbx))
    case AndReg => SetArith(s, RBX, Bitwise(BitAnd, rbx, rax))
    case MulReg =>
      SetArith(s, RAX, Wrap(rax * rbx)).(regs := s.regs[RAX := Wrap(rax * rbx)]
        [RDX := Wrap(rax * rbx / 0x1_0000_0000_0000_0000)])
    case DivReg => Divide(s, rax, Get(s.regs, RDX), rbx)
    case NotTop => if s.stk.Empty? then Halt(s, Stuck) else Next(s).(stk := Cons(Not(s.stk.top), s.stk.below))
    case AndOne(r) => SetArith(s, r, Bitwise(BitAnd, Get(s.regs, r), 1))
    case TestReg => Next(s).(flags := Some(Flags(rax == 0, false, Signed(rax) < 0)))
    case CmpReg => Next(s).(flags := Some(Compare(rax, rbx)))
    case CmpVar(x) =>
      (match ReadVar(o, s, x)
       case None => Halt(s, Faulted(PageFault))
       case Some(w) => Next(s).(flags := Some(Compare(rax, w))))
    case MovbAl(n) => SetReg(s, RAX, rax - rax % 256 + n % 256)
    case _ => StepFloat(o, i, s)
  }

  function FPush(s: State, w: Word): State {
    if Depth(s.fpu) >= 8 then Halt(s, Stuck) else Next(s).(fpu := Cons(w, s.fpu))
  }

  function StepFloat(o: Env, i: Instr, s: State): State {
    match i
    case Fld(k) =>
      (match Drop(s.stk, k)
       case Some(Cons(w, _)) => FPush(s, w)
       case _ => Halt(s, Stuck))
    case Fild => if s.stk.Empty? then Halt(s, Stuck) else FPush(s, o.fl.ofInt(Signed(s.stk.top)))
    case Fstp =>
      if s.fpu.Empty? || s.stk.Empty? then Halt(s, Stuck)
      else Next(s).(fpu := s.fpu.below, stk := Cons(s.fpu.top, s.stk.below))
    case Fistp =>
      if s.fpu.Empty? || s.stk.Empty? then Halt(s, Stuck)
      else Next(s).(fpu := s.fpu.below, stk := Cons(Indefinite(o.fl.toInt(s.fpu.top)), s.stk.below))
    case Farith(op) =>
      if s.fpu.Empty? || s.fpu.below.Empty? then Halt(s, Stuck)
      else Next(s).(fpu := Cons(o.fl.arith(op, s.fpu.top, s.fpu.below.top), s.fpu.below.below))
    case Fcomip =>
      if s.fpu.Empty? || s.fpu.below.Empty? then Halt(s, Stuck)
      else Next(s).(fpu := s.fpu.below, flags := Some(FloatFlags(o.fl.compare(s.fpu.top, s.fpu.below.top))))
    case FpopTop => if s.fpu.Empty? then Halt(s, Stuck) else Next(s).(fpu := s.fpu.below)
    case MovsdLoad(k) => if s.stk.Empty? then Halt(s, Stuck) else SetReg(s, XMM(k), s.stk.top)
    case MovsdStore => if s.stk.Empty? then Halt(s, Stuck) else Next(s).(stk := Cons(Get(s.regs, XMM(0)), s.stk.below))
    case Pxor(a, b) => SetReg(s, XMM(b), Bitwise(BitXor, Get(s.regs, XMM(b)), Get(s.regs, XMM(a))))
    case _ => StepFrame(o, i, s)
  }

  function StepFrame(o: Env, i: Instr, s: State): State {
    match i
    case AddRsp(k) => MoveRsp(o, s.(flags := None), s.rsp + k)
    case RspToRbp => Next(s).(rbp := s.rsp)
    case RbpToRsp => MoveRsp(o, s, s.rbp)
    case RspToR12 => Next(s).(r12 := s.rsp)
    case AndR12 => Next(s).(r12 := s.r12 % 16, flags := None)
    case AndRsp => MoveRsp(o, s.(flags := None), s.rsp - s.rsp % 16)
    case OrR12Rsp =>
      if 0 <= s.r12 < 16 then MoveRsp(o, s.(flags := None), OrNibble(s.rsp, s.r12))
      else Halt(s, Stuck)
    case CallPrintf =>
      (match PrintfEvent(o, s.regs) case None => Halt(s, Stuck) case Some(e) => DoCall(o, s, e))
    case CallForeign(f) =>
      if f in o.protos then DoCall(o, s, Called(f, ReadArgs(o.protos[f], s.regs, 0, 0))) else Halt(s, Stuck)
    case Ret =>
      if s.stk.Empty? then Halt(s, Stuck)
      else s.(status := Returned(s.stk.top), stk := s.stk.below, rsp := s.rsp + 8)
    case _ => Halt(s, Stuck)
  }

  function Step(P: seq<Instr>, o: Env, s: State): State {
    if s.status != Running then s
    else if !(0 <= s.pc < |P|) then Halt(s, Stuck)
    else
      match P[s.pc]
      case Def(_) => Next(s)
      case Jmp(l) => JumpTo(P, s, l)
      case Jcc(c, l) =>
        if s.flags.None? then Halt(s, Stuck)
        else if Holds(c, s.flags.value) then JumpTo(P, s, l)
        else Next(s)
      case i => StepData(o, i, s)
  }

  function Run(P: seq<Instr>, o: Env, s: State, n: nat): State
    decreases n
  {
    if n == 0 then s else Run(P, o, Step(P, o, s), n - 1)
  }

  lemma {:induction false} RunPlus(P: seq<Instr>, o: Env, s: State, m: nat, n: nat)
    ensures Run(P, o, s, m + n) == Run(P, o, Run(P, o, s, m), n)
    decreases m
  {
    if m > 0 {
      RunPlus(P, o, Step(P, o, s), m - 1, n);
    }
  }

  /** Once stopped, always stopped. */
  lemma {:induction false} HaltedStays(P: seq<Instr>, o: Env, s: State, n: nat)
    requires s.status != Running
    ensures Run(P, o, s, n) == s
  {
    if n > 0 {
      HaltedStays(P, o, s, n - 1);
    }
  }

  ghost predicate UniqueLabels(P: seq<Instr>) {
    forall i, j :: 0 <= i < j < |P| && P[i].Def? && P[j].Def? ==> P[i].l != P[j].l
  }

  lemma {:induction false} FindDefined(P: seq<Instr>, i: nat, from: nat)
    requires UniqueLabels(P) && from <= i < |P| && P[i].Def?
    ensures Find(P, P[i].l, from) == i
    decreases i - from
  {
    if from < i {
      FindDefined(P, i, from + 1);
    }
  }
}
