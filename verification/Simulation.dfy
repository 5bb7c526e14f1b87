/** How runs of the machine are put together, and what it means for a machine state to
    represent a source state. */
module Simulation {
  import opened Words
  import opened Memory
  import opened Typing
  import opened Machine
  import opened Emission
  import opened Semantics

  /** The code sits in the program at `pc`. */
  ghost predicate CodeAt(P: seq<Instr>, pc: int, code: seq<Instr>) {
    0 <= pc && pc + |code| <= |P| && forall i {:trigger code[i]} :: 0 <= i < |code| ==> P[pc + i] == code[i]
  }

  lemma CodeSplit(P: seq<Instr>, pc: int, a: seq<Instr>, b: seq<Instr>)
    requires CodeAt(P, pc, a + b)
    ensures CodeAt(P, pc, a) && CodeAt(P, pc + |a|, b)
  {
    forall i | 0 <= i < |a| ensures P[pc + i] == a[i] {
      assert (a + b)[i] == a[i];
    }
    forall i | 0 <= i < |b| ensures P[pc + |a| + i] == b[i] {
      assert (a + b)[|a| + i] == b[i];
    }
  }

  lemma WholeCode(P: seq<Instr>)
    ensures CodeAt(P, 0, P)
  {}

  lemma OneAt(P: seq<Instr>, pc: int, a: Instr)
    requires CodeAt(P, pc, [a])
    ensures 0 <= pc < |P| && P[pc] == a
  {
    assert [a][0] == a;
  }

  lemma TwoAt(P: seq<Instr>, pc: int, a: Instr, b: Instr)
    requires CodeAt(P, pc, [a, b])
    ensures 0 <= pc && pc + 1 < |P| && P[pc] == a && P[pc + 1] == b
  {
    assert [a, b][0] == a && [a, b][1] == b;
  }

  function Enc(o: Env, v: Value): Word {
    match v
    case VInt(w) => w
    case VDouble(w) => w
    case VBool(b) => Truth(b)
    case VChar(w) => w
    case VPtr(None) => 0
    case VPtr(Some(x)) => if x in o.addr then o.addr[x] else 0
  }

  predicate Apart(a: int, b: int) {
    a + 8 <= b || b + 8 <= a
  }

  /** What the main theorem asks of the linked program: globals have disjoint 8-byte
      footprints away from null, format strings are distinct, and each foreign function reads
      the arguments its declaration lists. */
  ghost predicate Linked(c: Scope, o: Env) {
    && (forall x :: x in c.vars ==> x in o.addr && o.addr[x] != 0)
    && (forall x, y :: x in c.vars && y in c.vars && x != y ==>
          Apart(o.addr[x], o.addr[y]))
    && o.format.Keys == {FmtUnsigned, FmtChar, FmtFloat}
    && o.format[FmtUnsigned] != o.format[FmtChar]
    && o.format[FmtUnsigned] != o.format[FmtFloat]
    && o.format[FmtChar] != o.format[FmtFloat]
    && (forall f :: f in c.funcs ==> f in o.protos && o.protos[f] == Proto(c.funcs[f].params))
    && FMOD in o.protos && o.protos[FMOD] == [true, true]
  }

  function Proto(ts: seq<Ty>): seq<bool> {
    if ts == [] then [] else [ts[0].TDouble?] + Proto(ts[1..])
  }

  /** Data memory represents the globals; nothing is mapped at null. */
  ghost predicate Represents(c: Scope, o: Env, st: Globals, mem: Mem) {
    && st.Keys == c.vars.Keys
    && (forall x :: x in c.vars ==> x in o.addr && Mapped(mem, o.addr[x]) && Load(mem, o.addr[x]) == Enc(o, st[x]))
    && !Mapped(mem, 0)
  }

  /** Registers other than %rax and %rbx survive, except that calls lose all of them and
      INTEGER products and quotients lose %rdx. */
  ghost predicate KeepsRegs(calls: bool, rdx: bool, a: Regs, b: Regs) {
    !calls ==> forall r :: r != RAX && r != RBX && (rdx ==> r != RDX) ==> Get(b, r) == Get(a, r)
  }

  /** Every register that a callee may change holds what the last call left. */
  ghost predicate LeftBy(o: Env, tr: Trace, regs: Regs) {
    forall r :: r != RAX && r != RBX ==> Get(regs, r) == Get(o.foreign(tr), r)
  }

  /** `n` steps advance by `len` instructions to stack `stk`, leaving the frame, the x87 stack,
      the data memory and the surviving registers as they were. */
  ghost predicate Reaches(P: seq<Instr>, o: Env, m: State, n: nat,
                          len: nat, stk: Stack, rsp: int, tr: Trace, calls: bool, rdx: bool)
  {
    var m' := Run(P, o, m, n);
    m'.status == Running && m'.pc == m.pc + len && m'.stk == stk && m'.rsp == rsp && m'.rbp == m.rbp
    && m'.fpu == m.fpu && m'.mem == m.mem && m'.trace == tr && KeepsRegs(calls, rdx, m.regs, m'.regs)
  }

  /** Where the two faults happen: at a division by zero, or at an access through null. */
  ghost predicate FaultsAt(P: seq<Instr>, m: State, k: TrapKind) {
    0 <= m.pc < |P| &&
    if k == DivisionByZero then m.status == Faulted(DivideError) && P[m.pc] == DivReg && Get(m.regs, RBX) == 0
    else m.status == Faulted(PageFault) && (P[m.pc] == PushInd || P[m.pc] == MovInd) && Get(m.regs, RAX) == 0
  }

  /** After `n` steps the fault of the trap has happened, with the data memory as it was. */
  ghost predicate Faults(P: seq<Instr>, o: Env, m: State, n: nat, k: TrapKind, tr: Trace) {
    var m' := Run(P, o, m, n);
    FaultsAt(P, m', k) && m'.mem == m.mem && m'.trace == tr
  }

  /** A state between two instruction sequences. */
  ghost predicate Ready(m: State) {
    m.status == Running && m.rsp % 8 == 0 && Depth(m.fpu) <= 6
  }
}
