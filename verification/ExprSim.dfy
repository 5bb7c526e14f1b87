/** Expression correctness: the code of an expression pushes its value, and nothing else. */
module ExprSim {
  import opened Words
  import opened Syntax
  import opened Typing
  import opened Machine
  import opened Emission
  import opened Semantics
  import opened Soundness
  import opened Registers
  import opened Simulation
  import opened Steps
  import opened Fragments

  /** The machine does, in `n` steps over `len` instructions, what the result says: one word on
      top of `rest` for a value, the corresponding fault for a trap. */
  ghost predicate Mirrors(P: seq<Instr>, o: Env, m: State, n: nat, len: nat, rest: Stack, rsp: int,
                          r: Result, calls: bool, rdx: bool)
  {
    match r
    case Val(v, tr, ok) => ok ==> Reaches(P, o, m, n, len, Cons(Enc(o, v), rest), rsp, tr, calls, rdx)
    case Trap(k, tr, ok) => ok ==> Faults(P, o, m, n, k, tr)
    case Wrong => true
  }

  lemma IntAgrees(o: Env, op: BinOp, a: Word, b: Word, tr: Trace)
    requires op != OpOr && op != OpAnd && !((op == OpDiv || op == OpMod) && b == 0)
    ensures IntMeaning(op, a, b, tr).Val?
    ensures IntMeaning(op, a, b, tr).ok <==> IntEmitted(op, a, b) == Enc(o, IntMeaning(op, a, b, tr).v)
    ensures op == OpAdd && a + b < 0x1_0000_0000_0000_0000 ==> IntEmitted(op, a, b) == a + b
    ensures op == OpAdd && a + b >= 0x1_0000_0000_0000_0000 ==>
              IntEmitted(op, a, b) == a + b - 0x1_0000_0000_0000_0000
    ensures op == OpSub ==> IntEmitted(op, a, b) == if a >= b then a - b else a - b + 0x1_0000_0000_0000_0000
    ensures op == OpMul ==> IntEmitted(op, a, b) == (a * b) % 0x1_0000_0000_0000_0000
  {
    EmittedNumbers(a, b);
  }

  lemma BoolAgrees(o: Env, op: BinOp, a: bool, b: bool, tr: Trace)
    requires op == OpOr || op == OpAnd
    ensures BoolMeaning(op, a, b, tr).Val?
    ensures BoolMeaning(op, a, b, tr).ok
       <==> IntEmitted(op, Truth(a), Truth(b)) == Enc(o, BoolMeaning(op, a, b, tr).v)
  {
    hide Bitwise;
    OrTruth(a, b);
  }

  /** The tracked registers after an operator, one by one. */
  ghost predicate OpLeft(o: Env, op: BinOp, a: Value, b: Value, tr: Trace, r0: Regs, r1: Regs) {
    forall r :: Tracked(r) ==> Get(r1, r) == AfterOp(o, op, a, b, tr, r, Get(r0, r))
  }

  /** The tracked registers after an expression, one by one. */
  ghost predicate Left(c: Scope, o: Env, e: Expr, st: Globals, tr: Trace, r0: Regs, r1: Regs) {
    forall r :: Tracked(r) ==> Get(r1, r) == Leaves(c, o, e, st, tr, r, Get(r0, r))
  }

  ghost predicate BothLeft(c: Scope, o: Env, e: Expr, st: Globals, tr: Trace, r0: Regs, r1: Regs)
    requires e.Bin? || e.Rel?
  {
    forall r :: Tracked(r) ==> Get(r1, r) == OperandsLeave(c, o, e, st, tr, r, Get(r0, r))
  }

  ghost predicate ListLeft(c: Scope, o: Env, args: seq<Expr>, st: Globals, tr: Trace, ri: nat, fi: nat, r0: Regs,
                           r1: Regs)
  {
    forall r :: Tracked(r) ==> Get(r1, r) == ArgsLeave(c, o, args, st, tr, ri, fi, r, Get(r0, r))
  }

  /** In `n` steps an expression has left in every tracked register exactly what it is said to leave. */
  ghost predicate Leaving(P: seq<Instr>, c: Scope, o: Env, e: Expr, st: Globals, m: State, n: nat) {
    var q := Eval(c, o, e, st, m.trace);
    q.Val? && q.ok ==> Left(c, o, e, st, m.trace, m.regs, Run(P, o, m, n).regs)
  }

  lemma LeftPlain(c: Scope, o: Env, e: Expr, st: Globals, tr: Trace, r0: Regs, r1: Regs)
    requires (e.Lit? || e.Var? || e.Ref?) && KeepsRegs(false, false, r0, r1)
    ensures Left(c, o, e, st, tr, r0, r1)
  {}

  /** A sequence that only uses %rax and %rbx, behind an operand. */
  lemma LeftOn(c: Scope, o: Env, e: Expr, a: Expr, st: Globals, tr: Trace, r0: Regs, r1: Regs, r2: Regs)
    requires (e.Deref? || e.Negate? || e.Conv?) && e.e == a
    requires Left(c, o, a, st, tr, r0, r1) && KeepsRegs(false, false, r1, r2)
    ensures Left(c, o, e, st, tr, r0, r2)
  {
    hide Eval, EvalArgs, EvalOperands;
  }

  lemma LeftBoth(c: Scope, o: Env, e: Expr, st: Globals, tr: Trace, r0: Regs, r1: Regs, r2: Regs)
    requires (e.Bin? || e.Rel?) && Eval(c, o, e.l, st, tr).Val?
    requires Left(c, o, e.l, st, tr, r0, r1) && Left(c, o, e.r, st, Eval(c, o, e.l, st, tr).tr, r1, r2)
    ensures BothLeft(c, o, e, st, tr, r0, r2)
  {
    hide Eval, Leaves;
  }

  lemma LeftBin(c: Scope, o: Env, e: Expr, st: Globals, tr: Trace, r0: Regs, r1: Regs, r2: Regs)
    requires e.Bin? && EvalOperands(c, o, e, st, tr).Both? && BothLeft(c, o, e, st, tr, r0, r1)
    requires var q := EvalOperands(c, o, e, st, tr); OpLeft(o, e.op, q.a, q.b, q.tr, r1, r2)
    ensures Left(c, o, e, st, tr, r0, r2)
  {
    hide EvalOperands, OperandsLeave, AfterOp;
  }

  lemma LeftRel(c: Scope, o: Env, e: Expr, st: Globals, tr: Trace, r0: Regs, r1: Regs, r2: Regs)
    requires e.Rel? && BothLeft(c, o, e, st, tr, r0, r1) && KeepsRegs(false, false, r1, r2)
    ensures Left(c, o, e, st, tr, r0, r2)
  {
    hide OperandsLeave;
  }

  lemma LeftCall(c: Scope, o: Env, e: Expr, st: Globals, tr: Trace, r0: Regs, r1: Regs)
    requires e.Call? && EvalArgs(c, o, e.args, st, tr).Vals?
    requires var q := EvalArgs(c, o, e.args, st, tr); LeftBy(o, q.tr + [Called(e.f, ArgWords(q.vs))], r1)
    ensures Left(c, o, e, st, tr, r0, r1)
  {
    hide EvalArgs, ArgWords;
  }

  lemma IntegerBinRuns(P: seq<Instr>, c: Scope, o: Env, m: State, op: BinOp, t: Ty, a: Value, b: Value, rest: Stack)
    returns (n: nat)
    requires CodeAt(P, m.pc, BinCode(op, t)) && Ready(m) && Linked(c, o) && t.TInt?
    requires m.stk == Cons(Enc(o, b), Cons(Enc(o, a), rest))
    requires CheckBin(op, Some(t), Some(t)) == Some(t) && HasType(c, a, t) && HasType(c, b, t)
    ensures Mirrors(P, o, m, n, |BinCode(op, t)|, rest, m.rsp + 8, BinMeaning(o, op, a, b, m.trace),
                    op == OpMod && t.TDouble?, UsesDivider(op) && !t.TDouble?)
    ensures BinMeaning(o, op, a, b, m.trace).Val? && BinMeaning(o, op, a, b, m.trace).ok ==>
              OpLeft(o, op, a, b, m.trace, m.regs, Run(P, o, m, n).regs)
  {
    hide Step, Run, Linked;
    n := IntBinRuns(P, o, m, op, a.w, b.w, rest);
    if !((op == OpDiv || op == OpMod) && b.w == 0) {
      IntAgrees(o, op, a.w, b.w, m.trace);
    }
  }

  lemma BooleanBinRuns(P: seq<Instr>, c: Scope, o: Env, m: State, op: BinOp, t: Ty, a: Value, b: Value, rest: Stack)
    returns (n: nat)
    requires CodeAt(P, m.pc, BinCode(op, t)) && Ready(m) && Linked(c, o) && t.TBool?
    requires m.stk == Cons(Enc(o, b), Cons(Enc(o, a), rest))
    requires CheckBin(op, Some(t), Some(t)) == Some(t) && HasType(c, a, t) && HasType(c, b, t)
    ensures Mirrors(P, o, m, n, |BinCode(op, t)|, rest, m.rsp + 8, BinMeaning(o, op, a, b, m.trace),
                    op == OpMod && t.TDouble?, UsesDivider(op) && !t.TDouble?)
    ensures BinMeaning(o, op, a, b, m.trace).Val? && BinMeaning(o, op, a, b, m.trace).ok ==>
              OpLeft(o, op, a, b, m.trace, m.regs, Run(P, o, m, n).regs)
  {
    hide Step, Run, Linked;
    n := IntBinRuns(P, o, m, op, Truth(a.b), Truth(b.b), rest);
    BoolAgrees(o, op, a.b, b.b, m.trace);
  }

  lemma DoubleBinRuns(P: seq<Instr>, c: Scope, o: Env, m: State, op: BinOp, t: Ty, a: Value, b: Value, rest: Stack)
    returns (n: nat)
    requires CodeAt(P, m.pc, BinCode(op, t)) && Ready(m) && Linked(c, o) && t.TDouble?
    requires m.stk == Cons(Enc(o, b), Cons(Enc(o, a), rest))
    requires CheckBin(op, Some(t), Some(t)) == Some(t) && HasType(c, a, t) && HasType(c, b, t)
    ensures Mirrors(P, o, m, n, |BinCode(op, t)|, rest, m.rsp + 8, BinMeaning(o, op, a, b, m.trace),
                    op == OpMod && t.TDouble?, UsesDivider(op) && !t.TDouble?)
    ensures BinMeaning(o, op, a, b, m.trace).Val? && BinMeaning(o, op, a, b, m.trace).ok ==>
              OpLeft(o, op, a, b, m.trace, m.regs, Run(P, o, m, n).regs)
  {
    hide Step, Run;
    if op == OpMod {
      n := FmodRuns(P, o, m, a.bits, b.bits, rest);
    } else {
      DoubleOpRuns(P, o, m, op, a.bits, b.bits, rest);
      n := 6;
    }
  }

  lemma BinRuns(P: seq<Instr>, c: Scope, o: Env, m: State, op: BinOp, t: Ty, a: Value, b: Value, rest: Stack)
    returns (n: nat)
    requires CodeAt(P, m.pc, BinCode(op, t)) && Ready(m) && Linked(c, o)
    requires m.stk == Cons(Enc(o, b), Cons(Enc(o, a), rest))
    requires CheckBin(op, Some(t), Some(t)) == Some(t) && HasType(c, a, t) && HasType(c, b, t)
    ensures Mirrors(P, o, m, n, |BinCode(op, t)|, rest, m.rsp + 8, BinMeaning(o, op, a, b, m.trace),
                    op == OpMod && t.TDouble?, UsesDivider(op) && !t.TDouble?)
    ensures BinMeaning(o, op, a, b, m.trace).Val? && BinMeaning(o, op, a, b, m.trace).ok ==>
              OpLeft(o, op, a, b, m.trace, m.regs, Run(P, o, m, n).regs)
  {
    hide Step, Run, Linked, Mirrors, OpLeft, BinMeaning, BinCode, CodeAt, HasType, Ready, Enc;
    if t.TInt? {
      n := IntegerBinRuns(P, c, o, m, op, t, a, b, rest);
    } else if t.TBool? {
      n := BooleanBinRuns(P, c, o, m, op, t, a, b, rest);
    } else {
      n := DoubleBinRuns(P, c, o, m, op, t, a, b, rest);
    }
  }

  /** The comparison jump reads the flags of the ordering, except that an unordered pair
      answers as if it were both less and equal. */
  lemma FloatRelAgrees(op: RelOp, ord: Ordering)
    ensures Holds(JumpCond(op), FloatFlags(ord)) == RelOrder(op, ord)
       <==> (ord.Unordered? ==> op == RelSup || op == RelSupe)
  {
  }

  lemma RelRuns(P: seq<Instr>, c: Scope, o: Env, m: State, op: RelOp, t: Ty, tag: nat, a: Value, b: Value, rest: Stack)
    returns (n: nat)
    requires CodeAt(P, m.pc, RelCode(op, t, tag)) && Ready(m) && UniqueLabels(P)
    requires m.stk == Cons(Enc(o, b), Cons(Enc(o, a), rest))
    requires IsArithmetic(t) && HasType(c, a, t) && HasType(c, b, t)
    ensures Mirrors(P, o, m, n, |RelCode(op, t, tag)|, rest, m.rsp + 8, RelMeaning(o, op, a, b, m.trace), false, false)
  {
    hide Step, Run;
    if t.TInt? {
      n := IntRelRuns(P, o, m, op, tag, a.w, b.w, rest);
    } else {
      n := FloatRelRuns(P, o, m, op, tag, a.bits, b.bits, rest);
      FloatRelAgrees(op, o.fl.compare(a.bits, b.bits));
    }
  }

  /** What a conversion leaves on the stack, as written. */
  function ConvEmitted(o: Env, v: Value, from: Ty, to: Ty): Word {
    if from.TInt? && to.TDouble? then o.fl.ofInt(Signed(Enc(o, v)))
    else if from.TDouble? && to.TInt? then Indefinite(o.fl.toInt(Enc(o, v)))
    else Enc(o, v)
  }

  lemma ConvAgrees(c: Scope, o: Env, v: Value, from: Ty, to: Ty, tr: Trace)
    requires HasType(c, v, from) && CheckConv(Some(from), Some(to)) == Some(to)
    ensures ConvMeaning(o, v, to, tr).Val? && ConvMeaning(o, v, to, tr).tr == tr
    ensures ConvMeaning(o, v, to, tr).ok ==> ConvEmitted(o, v, from, to) == Enc(o, ConvMeaning(o, v, to, tr).v)
    ensures !(from.TInt? && to.TDouble?) && ConvEmitted(o, v, from, to) == Enc(o, ConvMeaning(o, v, to, tr).v)
        ==> ConvMeaning(o, v, to, tr).ok
  {
  }

  lemma ConvRuns(P: seq<Instr>, c: Scope, o: Env, m: State, v: Value, from: Ty, to: Ty, rest: Stack) returns (n: nat)
    requires CodeAt(P, m.pc, ConvCode(from, to)) && Ready(m) && m.stk == Cons(Enc(o, v), rest)
    requires HasType(c, v, from) && CheckConv(Some(from), Some(to)) == Some(to)
    ensures Reaches(P, o, m, n, |ConvCode(from, to)|, Cons(ConvEmitted(o, v, from, to), rest), m.rsp, m.trace, false,
                    false)
  {
    hide Step, Run;
    if from.TInt? && to.TDouble? {
      ToDoubleRuns(P, o, m, Enc(o, v), rest);
      n := 2;
    } else if from.TDouble? && to.TInt? {
      ToIntegerRuns(P, o, m, Enc(o, v), rest);
      n := 2;
    } else {
      RunNone(P, o, m);
      n := 0;
    }
  }

  lemma DerefRuns(P: seq<Instr>, c: Scope, o: Env, m: State, v: Value, t: Ty, st: Globals, rest: Stack) returns (n: nat)
    requires CodeAt(P, m.pc, LOAD_POINTED) && Ready(m) && Linked(c, o)
    requires m.stk == Cons(Enc(o, v), rest) && HasType(c, v, TPtr(t))
    requires Represents(c, o, st, m.mem)
    ensures Mirrors(P, o, m, n, 2, rest, m.rsp, DerefMeaning(st, v, m.trace), false, false)
  {
    hide Step, Run;
    LoadPointedRuns(P, o, m, Enc(o, v), rest);
    n := 2;
  }

  /** Everything that holds between a source state and the machine before an expression. */
  ghost predicate Start(P: seq<Instr>, c: Scope, o: Env, st: Globals, m: State) {
    Linked(c, o) && UniqueLabels(P) && Ready(m) && WellTyped(c, st) && Represents(c, o, st, m.mem)
  }

  lemma StartAfter(P: seq<Instr>, c: Scope, o: Env, st: Globals, m: State, m1: State)
    requires Start(P, c, o, st, m)
    requires m1.status == Running && (m.rsp - m1.rsp) % 8 == 0 && m1.fpu == m.fpu && m1.mem == m.mem
    ensures Start(P, c, o, st, m1) && Ready(m1) && m1.status == Running && m.rsp % 8 == 0
  {
    assert m1.rsp == m.rsp - 8 * ((m.rsp - m1.rsp) / 8);
  }

  lemma StartRunning(P: seq<Instr>, c: Scope, o: Env, st: Globals, m: State)
    requires Start(P, c, o, st, m)
    ensures m.status == Running && m.rsp % 8 == 0
  {}

  lemma StartSound(P: seq<Instr>, c: Scope, o: Env, st: Globals, m: State, e: Expr, tr: Trace)
    requires Start(P, c, o, st, m) && CheckExpr(c, e).Some?
    ensures Sound(c, Eval(c, o, e, st, tr), CheckExpr(c, e).value)
  {
    EvalSound(c, o, e, st, tr);
  }

  /** A sequence with a known effect followed by one that mirrors a result. */
  lemma Prefixed(P: seq<Instr>, o: Env, m: State, n1: nat, len1: nat, stk1: Stack, rsp1: int, tr1: Trace, c1: bool,
                 r1: bool, n2: nat, len2: nat, rest: Stack, rsp: int, r: Result, c2: bool, r2: bool)
    requires Reaches(P, o, m, n1, len1, stk1, rsp1, tr1, c1, r1)
    requires Mirrors(P, o, Run(P, o, m, n1), n2, len2, rest, rsp, r, c2, r2)
    ensures Mirrors(P, o, m, n1 + n2, len1 + len2, rest, rsp, r, c1 || c2, r1 || r2)
  {
    hide Step;
    RunPlus(P, o, m, n1, n2);
  }

  /** For every well-typed expression and start state: if the run stays where the emitted
      sequences agree with their meaning, the code pushes exactly the value, or faults as the
      source traps, after the same trace; the stack below, the globals, %rbp and the x87 stack are
      as before, and every register but %rax and %rbx holds exactly what the expression leaves. */
  lemma {:induction false} ExprRuns(P: seq<Instr>, c: Scope, o: Env, e: Expr, tag: nat, st: Globals, m: State)
    returns (n: nat)
    requires Start(P, c, o, st, m) && CheckExpr(c, e).Some? && CodeAt(P, m.pc, ExprCode(c, e, tag).code)
    ensures Mirrors(P, o, m, n, |ExprCode(c, e, tag).code|, m.stk, m.rsp - 8, Eval(c, o, e, st, m.trace),
                    CallsOut(c, e), UsesRdx(c, e))
    ensures Leaving(P, c, o, e, st, m, n)
    decreases e, 2
  {
    hide Step, Run, Left, Linked, UniqueLabels, Represents;
    match e
    case Lit(t) =>
      n := LoadImmRuns(P, o, m, LiteralWord(t));
      LeftPlain(c, o, e, st, m.trace, m.regs, Run(P, o, m, n).regs);
    case Var(x) =>
      n := VarRuns(P, c, o, x, st, m);
      LeftPlain(c, o, e, st, m.trace, m.regs, Run(P, o, m, n).regs);
    case Ref(x) =>
      n := RefRuns(P, c, o, x, m);
      LeftPlain(c, o, e, st, m.trace, m.regs, Run(P, o, m, n).regs);
    case Paren(a) =>
      n := ExprRuns(P, c, o, a, tag, st, m);
      LeavingParen(P, c, o, a, st, m, n);
    case Deref(a) => n := DerefCase(P, c, o, a, tag, st, m);
    case Negate(a) => n := NegateCase(P, c, o, a, tag, st, m);
    case Bin(_, _, _) => n := BinCase(P, c, o, e, tag, st, m);
    case Rel(_, _, _) => n := RelCase(P, c, o, e, tag, st, m);
    case Conv(a, te) => n := ConvCase(P, c, o, a, te, tag, st, m);
    case Call(_, _) => n := CallCase(P, c, o, e, tag, st, m);
  }

  lemma LeavingParen(P: seq<Instr>, c: Scope, o: Env, a: Expr, st: Globals, m: State, n: nat)
    requires Leaving(P, c, o, a, st, m, n)
    ensures Leaving(P, c, o, Paren(a), st, m, n)
  {
    hide Step, Run;
  }

  lemma VarRuns(P: seq<Instr>, c: Scope, o: Env, x: Name, st: Globals, m: State) returns (n: nat)
    requires Start(P, c, o, st, m) && x in c.vars && CodeAt(P, m.pc, [PushVar(x)])
    ensures Reaches(P, o, m, n, 1, Cons(Enc(o, st[x]), m.stk), m.rsp - 8, m.trace, false, false)
  {
    hide Step, Run;
    assert P[m.pc] == [PushVar(x)][0];
    DoPushVar(P, o, m, x);
    n := 1;
    Run1(P, o, m);
  }

  lemma RefRuns(P: seq<Instr>, c: Scope, o: Env, x: Name, m: State) returns (n: nat)
    requires Linked(c, o) && Ready(m) && x in c.vars && CodeAt(P, m.pc, [LeaVar(x), PushReg(RAX)])
    ensures Reaches(P, o, m, n, 2, Cons(Enc(o, VPtr(Some(x))), m.stk), m.rsp - 8, m.trace, false, false)
  {
    hide Step, Run;
    var code := [LeaVar(x), PushReg(RAX)];
    assert P[m.pc] == code[0] && P[m.pc + 1] == code[1];
    DoLeaVar(P, o, m, x);
    DoPushReg(P, o, Step(P, o, m), RAX);
    Run2(P, o, m);
    n := 2;
  }

  /** An operand with the flag up is on the stack. */
  lemma Pushing(P: seq<Instr>, c: Scope, o: Env, st: Globals, m: State, n: nat, len: nat, q: Result, calls: bool,
                rdx: bool)
    requires Start(P, c, o, st, m) && q.Val? && q.ok && Mirrors(P, o, m, n, len, m.stk, m.rsp - 8, q, calls, rdx)
    ensures var m1 := Run(P, o, m, n);
      && Start(P, c, o, st, m1) && Ready(m1) && m1.pc == m.pc + len && m1.stk == Cons(Enc(o, q.v), m.stk)
      && m1.rsp == m.rsp - 8 && m1.trace == q.tr && Linked(c, o) && UniqueLabels(P) && Represents(c, o, st, m1.mem)
  {
    hide Step, Run;
    StartAfter(P, c, o, st, m, Run(P, o, m, n));
  }

  /** What a unary operator does behind its operand. */
  lemma Behind(P: seq<Instr>, c: Scope, o: Env, e: Expr, a: Expr, st: Globals, m: State, n: nat, len: nat,
               calls: bool, rdx: bool, k: nat, len2: nat, r: Result)
    requires (e.Deref? || e.Negate? || e.Conv?) && e.e == a
    requires var q := Eval(c, o, a, st, m.trace);
      q.Val? && q.ok && Mirrors(P, o, m, n, len, m.stk, m.rsp - 8, q, calls, rdx)
    requires Left(c, o, a, st, m.trace, m.regs, Run(P, o, m, n).regs)
    requires Mirrors(P, o, Run(P, o, m, n), k, len2, m.stk, m.rsp - 8, r, false, false)
    ensures Mirrors(P, o, m, n + k, len + len2, m.stk, m.rsp - 8, r, calls, rdx)
    ensures r.Val? && r.ok ==> Left(c, o, e, st, m.trace, m.regs, Run(P, o, m, n + k).regs)
  {
    hide Step, Run, Eval, Left, KeepsRegs;
    var q := Eval(c, o, a, st, m.trace);
    var m1 := Run(P, o, m, n);
    Prefixed(P, o, m, n, len, m1.stk, m1.rsp, q.tr, calls, rdx, k, len2, m.stk, m.rsp - 8, r, false, false);
    if r.Val? && r.ok {
      RunPlus(P, o, m, n, k);
      LeftOn(c, o, e, a, st, m.trace, m.regs, m1.regs, Run(P, o, m1, k).regs);
    }
  }

  /** The flag of the operand goes into the result. */
  lemma UnaryMirrors(P: seq<Instr>, c: Scope, o: Env, e: Expr, st: Globals, m: State, n: nat, len: nat,
                     calls: bool, rdx: bool, r: Result)
    requires Mirrors(P, o, m, n, len, m.stk, m.rsp - 8, r, calls, rdx) && Eval(c, o, e, st, m.trace) == r
    requires r.Val? && r.ok ==> Left(c, o, e, st, m.trace, m.regs, Run(P, o, m, n).regs)
    ensures Mirrors(P, o, m, n, len, m.stk, m.rsp - 8, Eval(c, o, e, st, m.trace), calls, rdx)
    ensures Leaving(P, c, o, e, st, m, n)
  {
    hide Step, Run, Eval, Left, Reaches, Faults;
  }

  lemma DerefShape(c: Scope, o: Env, a: Expr, tag: nat, st: Globals, tr: Trace)
    requires CheckExpr(c, Deref(a)).Some?
    ensures CheckExpr(c, a) == Some(TPtr(CheckExpr(c, Deref(a)).value))
    ensures ExprCode(c, Deref(a), tag).code == ExprCode(c, a, tag).code + LOAD_POINTED
    ensures var q := Eval(c, o, a, st, tr);
      Eval(c, o, Deref(a), st, tr) == if q.Val? then Weaken(DerefMeaning(st, q.v, q.tr), q.ok) else q
  {
    hide DerefMeaning;
  }

  lemma WeakenTrue(r: Result)
    ensures Weaken(r, true) == r
  {}

  /** Once the flag is down nothing is asked of the machine. */
  lemma FlagDown(P: seq<Instr>, c: Scope, o: Env, e: Expr, st: Globals, m: State, n: nat, len: nat, calls: bool,
                 rdx: bool)
    requires var q := Eval(c, o, e, st, m.trace); q.Wrong? || !q.ok
    ensures Mirrors(P, o, m, n, len, m.stk, m.rsp - 8, Eval(c, o, e, st, m.trace), calls, rdx)
    ensures Leaving(P, c, o, e, st, m, n)
  {
    hide Step, Run, Eval, Left, Reaches, Faults;
  }

  /** A trap of the operand is a trap of the whole. */
  lemma OperandTraps(P: seq<Instr>, c: Scope, o: Env, e: Expr, st: Globals, m: State, n: nat, len: nat, len': nat,
                     calls: bool, rdx: bool, q: Result)
    requires q.Trap? && Eval(c, o, e, st, m.trace) == q && Mirrors(P, o, m, n, len, m.stk, m.rsp - 8, q, calls, rdx)
    ensures Mirrors(P, o, m, n, len', m.stk, m.rsp - 8, Eval(c, o, e, st, m.trace), calls, rdx)
    ensures Leaving(P, c, o, e, st, m, n)
  {
    hide Step, Run, Eval, Left, Reaches, Faults;
  }

  lemma LeavingLeft(P: seq<Instr>, c: Scope, o: Env, a: Expr, st: Globals, m: State, n: nat)
    requires Leaving(P, c, o, a, st, m, n)
    ensures var q := Eval(c, o, a, st, m.trace);
      q.Val? && q.ok ==> Left(c, o, a, st, m.trace, m.regs, Run(P, o, m, n).regs)
  {
    hide Step, Run, Eval, Left;
  }

  lemma {:induction false} DerefCase(P: seq<Instr>, c: Scope, o: Env, a: Expr, tag: nat, st: Globals, m: State)
    returns (n: nat)
    requires Start(P, c, o, st, m)
    requires CheckExpr(c, Deref(a)).Some? && CodeAt(P, m.pc, ExprCode(c, Deref(a), tag).code)
    ensures Mirrors(P, o, m, n, |ExprCode(c, Deref(a), tag).code|, m.stk, m.rsp - 8,
                    Eval(c, o, Deref(a), st, m.trace), CallsOut(c, a), UsesRdx(c, a))
    ensures Leaving(P, c, o, Deref(a), st, m, n)
    decreases a, 3
  {
    hide Left, Leaving, Mirrors, Step, Run, Start, Ready, Linked, Represents, DerefMeaning, Eval, ExprCode, CheckExpr,
      CallsOut, UsesRdx, CodeAt, Sound, Weaken;
    DerefShape(c, o, a, tag, st, m.trace);
    var fa, calls, rdx := ExprCode(c, a, tag).code, CallsOut(c, a), UsesRdx(c, a);
    CodeSplit(P, m.pc, fa, LOAD_POINTED);
    var q := Eval(c, o, a, st, m.trace);
    n := ExprRuns(P, c, o, a, tag, st, m);
    LeavingLeft(P, c, o, a, st, m, n);
    if q.Val? && q.ok {
      StartSound(P, c, o, st, m, a, m.trace);
      SoundValue(c, q, TPtr(CheckExpr(c, Deref(a)).value));
      Pushing(P, c, o, st, m, n, |fa|, q, calls, rdx);
      var r := DerefMeaning(st, q.v, q.tr);
      var k := DerefRuns(P, c, o, Run(P, o, m, n), q.v, CheckExpr(c, Deref(a)).value, st, m.stk);
      Behind(P, c, o, Deref(a), a, st, m, n, |fa|, calls, rdx, k, 2, r);
      WeakenTrue(r);
      n := n + k;
      UnaryMirrors(P, c, o, Deref(a), st, m, n, |fa| + 2, calls, rdx, r);
    } else if q.Trap? {
      OperandTraps(P, c, o, Deref(a), st, m, n, |fa|, |fa| + 2, calls, rdx, q);
    } else {
      WeakenFalse(q);
      FlagDown(P, c, o, Deref(a), st, m, n, |fa| + 2, calls, rdx);
    }
  }

  lemma SoundValue(c: Scope, r: Result, t: Ty)
    requires r.Val? && Sound(c, r, t)
    ensures HasType(c, r.v, t)
  {}

  lemma WeakenFalse(q: Result)
    ensures forall r :: Weaken(r, false).Wrong? || !Weaken(r, false).ok
  {}

  lemma NegateShape(c: Scope, o: Env, a: Expr, tag: nat, st: Globals, tr: Trace)
    requires CheckExpr(c, Negate(a)).Some?
    ensures CheckExpr(c, a) == Some(TBool)
    ensures ExprCode(c, Negate(a), tag).code == ExprCode(c, a, tag).code + [NotTop]
    ensures var q := Eval(c, o, a, st, tr);
      && (q.Val? && q.v.VBool? ==> Eval(c, o, Negate(a), st, tr) == Val(VBool(!q.v.b), q.tr, q.ok))
      && (!q.Val? ==> Eval(c, o, Negate(a), st, tr) == q)
  {
  }

  lemma NegateMirrors(P: seq<Instr>, o: Env, m: State, b: bool, rest: Stack)
    requires CodeAt(P, m.pc, [NotTop]) && m.status == Running && m.stk == Cons(Truth(b), rest)
    ensures Mirrors(P, o, m, 1, 1, rest, m.rsp, Val(VBool(!b), m.trace, true), false, false)
  {
    hide Step, Run;
    NotRuns(P, o, m, b, rest);
  }

  lemma {:induction false} NegateCase(P: seq<Instr>, c: Scope, o: Env, a: Expr, tag: nat, st: Globals, m: State)
    returns (n: nat)
    requires Start(P, c, o, st, m)
    requires CheckExpr(c, Negate(a)).Some? && CodeAt(P, m.pc, ExprCode(c, Negate(a), tag).code)
    ensures Mirrors(P, o, m, n, |ExprCode(c, Negate(a), tag).code|, m.stk, m.rsp - 8,
                    Eval(c, o, Negate(a), st, m.trace), CallsOut(c, a), UsesRdx(c, a))
    ensures Leaving(P, c, o, Negate(a), st, m, n)
    decreases a, 3
  {
    hide Left, Leaving, Mirrors, Step, Run, Start, Linked, Represents, Eval, ExprCode, CheckExpr, CallsOut, UsesRdx,
      CodeAt, Sound;
    NegateShape(c, o, a, tag, st, m.trace);
    var fa, calls, rdx := ExprCode(c, a, tag).code, CallsOut(c, a), UsesRdx(c, a);
    CodeSplit(P, m.pc, fa, [NotTop]);
    var q := Eval(c, o, a, st, m.trace);
    n := ExprRuns(P, c, o, a, tag, st, m);
    LeavingLeft(P, c, o, a, st, m, n);
    StartSound(P, c, o, st, m, a, m.trace);
    if q.Val? {
      SoundValue(c, q, TBool);
    }
    if q.Val? && q.ok {
      Pushing(P, c, o, st, m, n, |fa|, q, calls, rdx);
      NegateMirrors(P, o, Run(P, o, m, n), q.v.b, m.stk);
      var r := Val(VBool(!q.v.b), q.tr, true);
      Behind(P, c, o, Negate(a), a, st, m, n, |fa|, calls, rdx, 1, 1, r);
      n := n + 1;
      UnaryMirrors(P, c, o, Negate(a), st, m, n, |fa| + 1, calls, rdx, r);
    } else if q.Trap? {
      OperandTraps(P, c, o, Negate(a), st, m, n, |fa|, |fa| + 1, calls, rdx, q);
    } else {
      FlagDown(P, c, o, Negate(a), st, m, n, |fa| + 1, calls, rdx);
    }
  }

  lemma ConvShape(c: Scope, o: Env, a: Expr, te: TypeExpr, tag: nat, st: Globals, tr: Trace)
    requires CheckExpr(c, Conv(a, te)).Some?
    ensures CheckExpr(c, a).Some? && Resolve(c.aliases, te) == CheckExpr(c, Conv(a, te))
    ensures var from, to := CheckExpr(c, a).value, CheckExpr(c, Conv(a, te)).value;
      var q := Eval(c, o, a, st, tr);
      && CheckConv(Some(from), Some(to)) == Some(to)
      && ExprCode(c, Conv(a, te), tag).code == ExprCode(c, a, tag).code + ConvCode(from, to)
      && Eval(c, o, Conv(a, te), st, tr) == if q.Val? then Weaken(ConvMeaning(o, q.v, to, q.tr), q.ok) else q
  {
    hide ConvMeaning, ConvCode;
  }

  lemma ConvMirrors(P: seq<Instr>, c: Scope, o: Env, m: State, v: Value, from: Ty, to: Ty, rest: Stack) returns (n: nat)
    requires CodeAt(P, m.pc, ConvCode(from, to)) && Ready(m) && m.stk == Cons(Enc(o, v), rest)
    requires HasType(c, v, from) && CheckConv(Some(from), Some(to)) == Some(to)
    ensures Mirrors(P, o, m, n, |ConvCode(from, to)|, rest, m.rsp, ConvMeaning(o, v, to, m.trace), false, false)
  {
    hide Step, Run, ConvCode, ConvMeaning, ConvEmitted;
    n := ConvRuns(P, c, o, m, v, from, to, rest);
    ConvAgrees(c, o, v, from, to, m.trace);
  }

  lemma {:induction false} ConvCase(P: seq<Instr>, c: Scope, o: Env, a: Expr, te: TypeExpr, tag: nat, st: Globals,
                                    m: State)
    returns (n: nat)
    requires Start(P, c, o, st, m)
    requires CheckExpr(c, Conv(a, te)).Some? && CodeAt(P, m.pc, ExprCode(c, Conv(a, te), tag).code)
    ensures Mirrors(P, o, m, n, |ExprCode(c, Conv(a, te), tag).code|, m.stk, m.rsp - 8,
                    Eval(c, o, Conv(a, te), st, m.trace), CallsOut(c, a), UsesRdx(c, a))
    ensures Leaving(P, c, o, Conv(a, te), st, m, n)
    decreases a, 3
  {
    hide Left, Leaving, Mirrors, Step, Run, Start, Ready, Linked, Represents, ConvMeaning, ConvCode, CheckConv, Eval,
      ExprCode, CheckExpr, CallsOut, UsesRdx, CodeAt, Sound, Weaken;
    ConvShape(c, o, a, te, tag, st, m.trace);
    var fa, calls, rdx := ExprCode(c, a, tag).code, CallsOut(c, a), UsesRdx(c, a);
    var from, to := CheckExpr(c, a).value, CheckExpr(c, Conv(a, te)).value;
    CodeSplit(P, m.pc, fa, ConvCode(from, to));
    var len := |fa| + |ConvCode(from, to)|;
    var q := Eval(c, o, a, st, m.trace);
    n := ExprRuns(P, c, o, a, tag, st, m);
    LeavingLeft(P, c, o, a, st, m, n);
    if q.Val? && q.ok {
      StartSound(P, c, o, st, m, a, m.trace);
      SoundValue(c, q, from);
      Pushing(P, c, o, st, m, n, |fa|, q, calls, rdx);
      var r := ConvMeaning(o, q.v, to, q.tr);
      var k := ConvMirrors(P, c, o, Run(P, o, m, n), q.v, from, to, m.stk);
      Behind(P, c, o, Conv(a, te), a, st, m, n, |fa|, calls, rdx, k, |ConvCode(from, to)|, r);
      WeakenTrue(r);
      n := n + k;
      UnaryMirrors(P, c, o, Conv(a, te), st, m, n, len, calls, rdx, r);
    } else if q.Trap? {
      OperandTraps(P, c, o, Conv(a, te), st, m, n, |fa|, len, calls, rdx, q);
    } else {
      WeakenFalse(q);
      FlagDown(P, c, o, Conv(a, te), st, m, n, len, calls, rdx);
    }
  }

  ghost predicate PushesBoth(P: seq<Instr>, o: Env, m: State, n: nat, len: nat, q: Operands, calls: bool, rdx: bool) {
    match q
    case OperandTrap(k, tr, ok) => ok ==> Faults(P, o, m, n, k, tr)
    case OperandWrong => true
    case Both(a, b, tr, ok) => ok ==>
      Reaches(P, o, m, n, len, Cons(Enc(o, b), Cons(Enc(o, a), m.stk)), m.rsp - 16, tr, calls, rdx)
  }

  /** The right operand behind the left one. */
  lemma BothPushed(P: seq<Instr>, c: Scope, o: Env, e: Expr, st: Globals, m: State, n: nat, len: nat, k: nat, len2: nat,
                   calls: bool, rdx: bool, calls2: bool, rdx2: bool)
    requires e.Bin? || e.Rel?
    requires var q := Eval(c, o, e.l, st, m.trace); var m1 := Run(P, o, m, n);
      && q.Val? && q.ok && Mirrors(P, o, m, n, len, m.stk, m.rsp - 8, q, calls, rdx)
      && Mirrors(P, o, m1, k, len2, m1.stk, m1.rsp - 8, Eval(c, o, e.r, st, q.tr), calls2, rdx2)
      && Left(c, o, e.l, st, m.trace, m.regs, m1.regs) && Leaving(P, c, o, e.r, st, m1, k)
    ensures PushesBoth(P, o, m, n + k, len + len2, EvalOperands(c, o, e, st, m.trace), calls || calls2, rdx || rdx2)
    ensures var q := EvalOperands(c, o, e, st, m.trace);
      q.Both? && q.ok ==> BothLeft(c, o, e, st, m.trace, m.regs, Run(P, o, m, n + k).regs)
  {
    hide Step, Run, Eval, Left, BothLeft, KeepsRegs;
    var q := Eval(c, o, e.l, st, m.trace);
    var m1 := Run(P, o, m, n);
    var p := Eval(c, o, e.r, st, q.tr);
    Prefixed(P, o, m, n, len, m1.stk, m1.rsp, q.tr, calls, rdx, k, len2, m1.stk, m1.rsp - 8, p, calls2, rdx2);
    RunPlus(P, o, m, n, k);
    if p.Val? && p.ok {
      LeftBoth(c, o, e, st, m.trace, m.regs, m1.regs, Run(P, o, m1, k).regs);
    }
  }

  /** A left operand that traps or lowers the flag. */
  lemma LeftStops(P: seq<Instr>, c: Scope, o: Env, e: Expr, st: Globals, m: State, n: nat, len: nat, len': nat,
                  calls: bool, rdx: bool, calls': bool, rdx': bool)
    requires e.Bin? || e.Rel?
    requires var q := Eval(c, o, e.l, st, m.trace);
      !(q.Val? && q.ok) && Mirrors(P, o, m, n, len, m.stk, m.rsp - 8, q, calls, rdx)
    ensures PushesBoth(P, o, m, n, len', EvalOperands(c, o, e, st, m.trace), calls', rdx')
    ensures var q := EvalOperands(c, o, e, st, m.trace); !(q.Both? && q.ok)
  {
    hide Step, Run, Eval, Reaches, Faults;
  }

  /** The two operands of a binary node, in order. */
  lemma {:induction false} OperandsRun(P: seq<Instr>, c: Scope, o: Env, e: Expr, tag: nat, st: Globals, m: State)
    returns (n: nat)
    requires e.Bin? || e.Rel?
    requires Start(P, c, o, st, m) && CheckExpr(c, e.l).Some? && CheckExpr(c, e.r).Some?
    requires CodeAt(P, m.pc, OperandsCode(c, e, tag).code)
    ensures PushesBoth(P, o, m, n, |OperandsCode(c, e, tag).code|, EvalOperands(c, o, e, st, m.trace),
                       CallsOut(c, e.l) || CallsOut(c, e.r), UsesRdx(c, e.l) || UsesRdx(c, e.r))
    ensures var q := EvalOperands(c, o, e, st, m.trace);
      q.Both? && q.ok ==> BothLeft(c, o, e, st, m.trace, m.regs, Run(P, o, m, n).regs)
    decreases e, 0
  {
    hide Left, BothLeft, Leaving, Mirrors, PushesBoth, Step, Run, Start, Represents, Linked, Eval, EvalOperands,
      ExprCode, CallsOut, UsesRdx, CodeAt, CheckExpr;
    var fl := ExprCode(c, e.l, tag);
    var fr := ExprCode(c, e.r, fl.tag);
    CodeSplit(P, m.pc, fl.code, fr.code);
    var q := Eval(c, o, e.l, st, m.trace);
    n := ExprRuns(P, c, o, e.l, tag, st, m);
    LeavingLeft(P, c, o, e.l, st, m, n);
    if q.Val? && q.ok {
      Pushing(P, c, o, st, m, n, |fl.code|, q, CallsOut(c, e.l), UsesRdx(c, e.l));
      var k := ExprRuns(P, c, o, e.r, fl.tag, st, Run(P, o, m, n));
      BothPushed(P, c, o, e, st, m, n, |fl.code|, k, |fr.code|, CallsOut(c, e.l), UsesRdx(c, e.l), CallsOut(c, e.r),
                 UsesRdx(c, e.r));
      n := n + k;
    } else {
      LeftStops(P, c, o, e, st, m, n, |fl.code|, |fl.code| + |fr.code|, CallsOut(c, e.l), UsesRdx(c, e.l),
                CallsOut(c, e.l) || CallsOut(c, e.r), UsesRdx(c, e.l) || UsesRdx(c, e.r));
    }
  }

  lemma StartOperands(P: seq<Instr>, c: Scope, o: Env, st: Globals, m: State, e: Expr)
    requires e.Bin? || e.Rel?
    requires Start(P, c, o, st, m) && CheckExpr(c, e.l).Some? && CheckExpr(c, e.r) == CheckExpr(c, e.l)
    ensures var q := EvalOperands(c, o, e, st, m.trace); var t := CheckExpr(c, e.l).value;
      q.Both? ==> HasType(c, q.a, t) && HasType(c, q.b, t)
  {
    hide Linked, Represents, UniqueLabels, EvalOperands, HasType, WellTyped;
    OperandsSound(c, o, e, st, m.trace);
  }

  lemma BinShape(c: Scope, e: Expr, tag: nat)
    requires e.Bin? && CheckExpr(c, e).Some?
    ensures var t := CheckExpr(c, e).value; var f := OperandsCode(c, e, tag);
      && CheckExpr(c, e.l) == Some(t) && CheckExpr(c, e.r) == Some(t) && CheckBin(e.op, Some(t), Some(t)) == Some(t)
      && ExprCode(c, e, tag).code == f.code + BinCode(e.op, t)
      && (CallsOut(c, e) == ((CallsOut(c, e.l) || CallsOut(c, e.r)) || (e.op == OpMod && t.TDouble?)))
      && (UsesRdx(c, e) == ((UsesRdx(c, e.l) || UsesRdx(c, e.r)) || (UsesDivider(e.op) && !t.TDouble?)))
  {
    hide OperandsCode, BinCode;
  }

  /** The operator of a binary node behind its operands. */
  lemma BinFinish(P: seq<Instr>, c: Scope, o: Env, e: Expr, t: Ty, st: Globals, m: State, n: nat, len: nat,
                  calls: bool, rdx: bool)
    returns (k: nat)
    requires e.Bin? && Start(P, c, o, st, m) && CodeAt(P, m.pc + len, BinCode(e.op, t))
    requires CheckBin(e.op, Some(t), Some(t)) == Some(t) && EvalOperands(c, o, e, st, m.trace).Both?
    requires var q := EvalOperands(c, o, e, st, m.trace);
      && HasType(c, q.a, t) && HasType(c, q.b, t)
      && Reaches(P, o, m, n, len, Cons(Enc(o, q.b), Cons(Enc(o, q.a), m.stk)), m.rsp - 16, q.tr, calls, rdx)
      && BothLeft(c, o, e, st, m.trace, m.regs, Run(P, o, m, n).regs)
    ensures var q := EvalOperands(c, o, e, st, m.trace); var r := BinMeaning(o, e.op, q.a, q.b, q.tr);
      && Mirrors(P, o, m, n + k, len + |BinCode(e.op, t)|, m.stk, m.rsp - 8, r,
                 calls || (e.op == OpMod && t.TDouble?), rdx || (UsesDivider(e.op) && !t.TDouble?))
      && (r.Val? && r.ok ==> Left(c, o, e, st, m.trace, m.regs, Run(P, o, m, n + k).regs))
  {
    hide Left, BothLeft, OpLeft, KeepsRegs, Step, Run, Start, EvalOperands, BinCode, BinMeaning, HasType, CodeAt,
      CheckBin, UsesDivider;
    var q := EvalOperands(c, o, e, st, m.trace);
    var m1 := Run(P, o, m, n);
    StartAfter(P, c, o, st, m, m1);
    k := BinRuns(P, c, o, m1, e.op, t, q.a, q.b, m.stk);
    Prefixed(P, o, m, n, len, m1.stk, m1.rsp, q.tr, calls, rdx,
             k, |BinCode(e.op, t)|, m.stk, m.rsp - 8, BinMeaning(o, e.op, q.a, q.b, q.tr),
             e.op == OpMod && t.TDouble?, UsesDivider(e.op) && !t.TDouble?);
    var r := BinMeaning(o, e.op, q.a, q.b, q.tr);
    if r.Val? && r.ok {
      RunPlus(P, o, m, n, k);
      LeftBin(c, o, e, st, m.trace, m.regs, m1.regs, Run(P, o, m1, k).regs);
    }
  }

  lemma {:induction false} BinCase(P: seq<Instr>, c: Scope, o: Env, e: Expr, tag: nat, st: Globals, m: State)
    returns (n: nat)
    requires e.Bin? && Start(P, c, o, st, m) && CheckExpr(c, e).Some? && CodeAt(P, m.pc, ExprCode(c, e, tag).code)
    ensures Mirrors(P, o, m, n, |ExprCode(c, e, tag).code|, m.stk, m.rsp - 8, Eval(c, o, e, st, m.trace),
                    CallsOut(c, e), UsesRdx(c, e))
    ensures Leaving(P, c, o, e, st, m, n)
    decreases e, 1
  {
    hide Leaves, Left, BothLeft, OpLeft, KeepsRegs, Reaches, Step, Run, Start, EvalOperands, OperandsCode, BinCode,
      BinMeaning, HasType, ExprCode, CheckExpr, CodeAt, CheckBin, CallsOut, UsesRdx, UsesDivider;
    BinShape(c, e, tag);
    var t := CheckExpr(c, e).value;
    var f := OperandsCode(c, e, tag);
    CodeSplit(P, m.pc, f.code, BinCode(e.op, t));
    StartOperands(P, c, o, st, m, e);
    n := OperandsRun(P, c, o, e, tag, st, m);
    var q := EvalOperands(c, o, e, st, m.trace);
    if q.Both? && q.ok {
      var k := BinFinish(P, c, o, e, t, st, m, n, |f.code|, CallsOut(c, e.l) || CallsOut(c, e.r),
                         UsesRdx(c, e.l) || UsesRdx(c, e.r));
      n := n + k;
    }
  }

  /** A comparison behind its operands. */
  lemma RelFinish(P: seq<Instr>, c: Scope, o: Env, e: Expr, t: Ty, tag: nat, st: Globals, m: State, n: nat, len: nat,
                  calls: bool, rdx: bool) returns (k: nat)
    requires e.Rel? && Start(P, c, o, st, m) && CodeAt(P, m.pc + len, RelCode(e.rel, t, tag))
    requires IsArithmetic(t) && EvalOperands(c, o, e, st, m.trace).Both?
    requires var q := EvalOperands(c, o, e, st, m.trace);
      && HasType(c, q.a, t) && HasType(c, q.b, t)
      && Reaches(P, o, m, n, len, Cons(Enc(o, q.b), Cons(Enc(o, q.a), m.stk)), m.rsp - 16, q.tr, calls, rdx)
      && BothLeft(c, o, e, st, m.trace, m.regs, Run(P, o, m, n).regs)
    ensures var q := EvalOperands(c, o, e, st, m.trace); var r := RelMeaning(o, e.rel, q.a, q.b, q.tr);
      && Mirrors(P, o, m, n + k, len + |RelCode(e.rel, t, tag)|, m.stk, m.rsp - 8, r, calls, rdx)
      && (r.Val? && r.ok ==> Left(c, o, e, st, m.trace, m.regs, Run(P, o, m, n + k).regs))
  {
    hide Left, BothLeft, KeepsRegs, Step, Run, EvalOperands, RelCode, RelMeaning, HasType, CodeAt;
    var q := EvalOperands(c, o, e, st, m.trace);
    var m1 := Run(P, o, m, n);
    StartAfter(P, c, o, st, m, m1);
    k := RelRuns(P, c, o, m1, e.rel, t, tag, q.a, q.b, m.stk);
    var r := RelMeaning(o, e.rel, q.a, q.b, q.tr);
    Prefixed(P, o, m, n, len, m1.stk, m1.rsp, q.tr, calls, rdx,
             k, |RelCode(e.rel, t, tag)|, m.stk, m.rsp - 8, r, false, false);
    if r.Val? && r.ok {
      RunPlus(P, o, m, n, k);
      LeftRel(c, o, e, st, m.trace, m.regs, m1.regs, Run(P, o, m1, k).regs);
    }
  }

  lemma RelShape(c: Scope, e: Expr, tag: nat)
    requires e.Rel? && CheckExpr(c, e).Some?
    ensures var f := OperandsCode(c, e, tag);
      && CheckExpr(c, e.l).Some? && CheckExpr(c, e.r) == CheckExpr(c, e.l) && IsArithmetic(CheckExpr(c, e.l).value)
      && ExprCode(c, e, tag).code == f.code + RelCode(e.rel, CheckExpr(c, e.l).value, f.tag + 1)
      && CallsOut(c, e) == (CallsOut(c, e.l) || CallsOut(c, e.r))
      && UsesRdx(c, e) == (UsesRdx(c, e.l) || UsesRdx(c, e.r))
  {
    hide OperandsCode, RelCode;
  }

  lemma {:induction false} RelCase(P: seq<Instr>, c: Scope, o: Env, e: Expr, tag: nat, st: Globals, m: State)
    returns (n: nat)
    requires e.Rel? && Start(P, c, o, st, m) && CheckExpr(c, e).Some? && CodeAt(P, m.pc, ExprCode(c, e, tag).code)
    ensures Mirrors(P, o, m, n, |ExprCode(c, e, tag).code|, m.stk, m.rsp - 8, Eval(c, o, e, st, m.trace),
                    CallsOut(c, e), UsesRdx(c, e))
    ensures Leaving(P, c, o, e, st, m, n)
    decreases e, 1
  {
    hide Leaves, Left, BothLeft, KeepsRegs, Reaches, Step, Run, Start, EvalOperands, OperandsCode, RelCode,
      RelMeaning, HasType, ExprCode, CheckExpr, CodeAt, CallsOut, UsesRdx;
    RelShape(c, e, tag);
    var t := CheckExpr(c, e.l).value;
    var f := OperandsCode(c, e, tag);
    CodeSplit(P, m.pc, f.code, RelCode(e.rel, t, f.tag + 1));
    StartOperands(P, c, o, st, m, e);
    n := OperandsRun(P, c, o, e, tag, st, m);
    var q := EvalOperands(c, o, e, st, m.trace);
    if q.Both? && q.ok {
      var k := RelFinish(P, c, o, e, t, f.tag + 1, st, m, n, |f.code|, CallsOut(c, e), UsesRdx(c, e));
      n := n + k;
    }
  }

  /** The stack, frame and memory are as before; only registers and the trace have moved on. */
  ghost predicate Arrives(m: State, m': State, len: nat, tr: Trace) {
    m'.status == Running && m'.pc == m.pc + len && m'.stk == m.stk && m'.rsp == m.rsp && m'.rbp == m.rbp
    && m'.fpu == m.fpu && m'.mem == m.mem && m'.trace == tr
  }

  /** One argument: evaluated, then moved to its register. */
  lemma {:induction false} ArgRuns(P: seq<Instr>, c: Scope, o: Env, e: Expr, tag: nat, ri: nat, fi: nat,
                                   st: Globals, m: State) returns (n: nat)
    requires Start(P, c, o, st, m) && CheckExpr(c, e).Some? && !CheckExpr(c, e).value.TPtr?
    requires ri <= if CheckExpr(c, e).value.TDouble? then 6 else 5
    requires CodeAt(P, m.pc, ExprCode(c, e, tag).code + PopArg(CheckExpr(c, e).value, ri, fi))
    ensures var t := CheckExpr(c, e).value;
      var m' := Run(P, o, m, n);
      match Eval(c, o, e, st, m.trace)
      case Trap(k, tr, ok) => ok ==> Faults(P, o, m, n, k, tr)
      case Wrong => true
      case Val(v, tr, ok) => ok ==>
        && Arrives(m, m', |ExprCode(c, e, tag).code + PopArg(t, ri, fi)|, tr)
        && Get(m'.regs, ArgTarget(t, ri, fi)) == ArgWord(v)
        && (forall r :: Tracked(r) && r != ArgTarget(t, ri, fi) ==>
              Get(m'.regs, r) == Leaves(c, o, e, st, m.trace, r, Get(m.regs, r)))
    decreases e, 3
  {
    hide Step, Run, Start, Linked, Represents, CheckExpr, ExprCode, Eval, Leaves, CallsOut, UsesRdx, CodeAt, PopArg;
    var t := CheckExpr(c, e).value;
    var fe := ExprCode(c, e, tag).code;
    CodeSplit(P, m.pc, fe, PopArg(t, ri, fi));
    StartSound(P, c, o, st, m, e, m.trace);
    n := ExprRuns(P, c, o, e, tag, st, m);
    var q := Eval(c, o, e, st, m.trace);
    if q.Val? && q.ok {
      var m1 := Run(P, o, m, n);
      StartAfter(P, c, o, st, m, m1);
      PopArgRuns(P, o, m1, q.v, t, ri, fi, m.stk);
      RunPlus(P, o, m, n, |PopArg(t, ri, fi)|);
      n := n + |PopArg(t, ri, fi)|;
    }
  }

  /** System V argument passing: after the argument code, reading the i-th regular argument from the
      i-th of %rdi, %rsi, %rdx, %rcx, %r8, %r9 and the j-th DOUBLE from %xmm_j gives exactly the words
      passed, with the stack back at its height and every other register as the arguments leave it. */
  ghost predicate Passes(P: seq<Instr>, c: Scope, o: Env, m: State, n: nat, len: nat, args: seq<Expr>, ts: seq<Ty>,
                         ri: nat, fi: nat, st: Globals, r: ArgResult)
  {
    match r
    case ArgTrap(k, tr, ok) => ok ==> Faults(P, o, m, n, k, tr)
    case ArgWrong => true
    case Vals(vs, tr, ok) => ok ==>
      var m' := Run(P, o, m, n);
      && Arrives(m, m', len, tr)
      && ReadArgs(Proto(ts), m'.regs, ri, fi) == Passed(c, o, args, st, m.trace, ri, fi)
      && ListLeft(c, o, args, st, m.trace, ri, fi, m.regs, m'.regs)
  }

  lemma {:induction false} ArgsRun(P: seq<Instr>, c: Scope, o: Env, args: seq<Expr>, ts: seq<Ty>, tag: nat,
                                   ri: nat, fi: nat, st: Globals, m: State) returns (n: nat)
    requires Start(P, c, o, st, m) && CheckArgs(c, args, ts)
    requires forall i :: 0 <= i < |ts| ==> !ts[i].TPtr?
    requires ri + RegularCount(ts) <= 6
    requires CodeAt(P, m.pc, ArgsCode(c, args, tag, ri, fi).code)
    ensures Passes(P, c, o, m, n, |ArgsCode(c, args, tag, ri, fi).code|, args, ts, ri, fi, st,
                   EvalArgs(c, o, args, st, m.trace))
    decreases args, 4
  {
    hide Step, Run, Start, Eval, ExprCode;
    if args == [] {
      n := 0;
      RunNone(P, o, m);
      StartRunning(P, c, o, st, m);
    } else {
      n := MoreArgsRun(P, c, o, args, ts, tag, ri, fi, st, m);
    }
  }

  /** The tracked registers after the first argument and after all of them. */
  lemma ListCons(c: Scope, o: Env, args: seq<Expr>, t: Ty, st: Globals, tr: Trace, ri: nat, fi: nat, r0: Regs,
                 r1: Regs, r2: Regs)
    requires args != [] && CheckExpr(c, args[0]) == Some(t) && Eval(c, o, args[0], st, tr).Val?
    requires ri <= if t.TDouble? then 6 else 5
    requires var q := Eval(c, o, args[0], st, tr); var r' := ArgTarget(t, ri, fi);
      && Get(r1, r') == ArgWord(q.v)
      && (forall r :: Tracked(r) && r != r' ==> Get(r1, r) == Leaves(c, o, args[0], st, tr, r, Get(r0, r)))
      && ListLeft(c, o, args[1..], st, q.tr, if t.TDouble? then ri else ri + 1, if t.TDouble? then fi + 1 else fi, r1,
                  r2)
    ensures ListLeft(c, o, args, st, tr, ri, fi, r0, r2)
  {
    hide Eval, Leaves, ArgTarget, CheckExpr;
    TypeOf(c, args[0], t);
  }

  lemma TargetTracked(t: Ty, ri: nat, fi: nat)
    ensures Tracked(ArgTarget(t, ri, fi))
  {}

  /** Reading the arguments one by one. */
  lemma PassedCons(c: Scope, o: Env, args: seq<Expr>, ts: seq<Ty>, st: Globals, tr: Trace, ri: nat, fi: nat, r1: Regs,
                   r2: Regs)
    requires args != [] && ts != [] && CheckExpr(c, args[0]) == Some(ts[0]) && Eval(c, o, args[0], st, tr).Val?
    requires var q := Eval(c, o, args[0], st, tr); var t := ts[0];
      var ri', fi' := if t.TDouble? then ri else ri + 1, if t.TDouble? then fi + 1 else fi;
      && Get(r1, ArgTarget(t, ri, fi)) == ArgWord(q.v)
      && ListLeft(c, o, args[1..], st, q.tr, ri', fi', r1, r2)
      && ReadArgs(Proto(ts[1..]), r2, ri', fi') == Passed(c, o, args[1..], st, q.tr, ri', fi')
    ensures ReadArgs(Proto(ts), r2, ri, fi) == Passed(c, o, args, st, tr, ri, fi)
  {
    hide Eval, ArgsLeave, CheckExpr;
    TypeOf(c, args[0], ts[0]);
    TargetTracked(ts[0], ri, fi);
    assert Proto(ts) == [ts[0].TDouble?] + Proto(ts[1..]);
    assert Proto(ts)[1..] == Proto(ts[1..]);
  }

  lemma {:induction false} MoreArgsRun(P: seq<Instr>, c: Scope, o: Env, args: seq<Expr>, ts: seq<Ty>, tag: nat,
                                   ri: nat, fi: nat, st: Globals, m: State) returns (n: nat)
    requires args != [] && Start(P, c, o, st, m) && CheckArgs(c, args, ts)
    requires forall i :: 0 <= i < |ts| ==> !ts[i].TPtr?
    requires ri + RegularCount(ts) <= 6
    requires CodeAt(P, m.pc, ArgsCode(c, args, tag, ri, fi).code)
    ensures Passes(P, c, o, m, n, |ArgsCode(c, args, tag, ri, fi).code|, args, ts, ri, fi, st,
                   EvalArgs(c, o, args, st, m.trace))
    decreases args, 3
  {
    hide Step, Run, Start, Ready, ListLeft, Leaves, Passed, ReadArgs, Proto, ArgWords, PopArg, ArgTarget, Tracked,
      Eval, ExprCode, CodeAt, ArgsCode;
    var t := ts[0];
    ArgsCodeCons(c, args, t, tag, ri, fi);
    var fa := ExprCode(c, args[0], tag);
    var first := fa.code + PopArg(t, ri, fi);
    var ri', fi' := if t.TDouble? then ri else ri + 1, if t.TDouble? then fi + 1 else fi;
    var rest := ArgsCode(c, args[1..], fa.tag, ri', fi').code;
    assert ArgsCode(c, args, tag, ri, fi).code == first + rest;
    CodeSplit(P, m.pc, first, rest);
    n := ArgRuns(P, c, o, args[0], tag, ri, fi, st, m);
    var q := Eval(c, o, args[0], st, m.trace);
    if q.Val? && q.ok {
      var m1 := Run(P, o, m, n);
      StartAfter(P, c, o, st, m, m1);
      var k := ArgsRun(P, c, o, args[1..], ts[1..], fa.tag, ri', fi', st, m1);
      RunPlus(P, o, m, n, k);
      var r := EvalArgs(c, o, args[1..], st, q.tr);
      if r.Vals? && r.ok {
        ListCons(c, o, args, t, st, m.trace, ri, fi, m.regs, m1.regs, Run(P, o, m1, k).regs);
        PassedCons(c, o, args, ts, st, m.trace, ri, fi, m1.regs, Run(P, o, m1, k).regs);
      }
      n := n + k;
    }
  }

  /** The whole of a call, in an expression or as a statement: whatever later arguments overwrite, the
      callee reads exactly the words passed. */
  lemma {:induction false} CallRuns(P: seq<Instr>, c: Scope, o: Env, f: Name, args: seq<Expr>, tag: nat,
                                    st: Globals, m: State) returns (n: nat)
    requires Start(P, c, o, st, m) && f in c.funcs && Callable(c.funcs[f]) && CheckArgs(c, args, c.funcs[f].params)
    requires CodeAt(P, m.pc, ArgsCode(c, args, tag, 0, 0).code + FinishCall(f, c.funcs[f].ret))
    ensures var ret := c.funcs[f].ret;
      match EvalArgs(c, o, args, st, m.trace)
      case ArgTrap(k, tr, ok) => ok ==> Faults(P, o, m, n, k, tr)
      case ArgWrong => true
      case Vals(vs, tr1, ok) => ok ==>
        var tr := tr1 + [Called(f, Passed(c, o, args, st, m.trace, 0, 0))];
        && Reaches(P, o, m, n, |ArgsCode(c, args, tag, 0, 0).code| + |FinishCall(f, ret)|,
                   if ret.None? then m.stk else Cons(ResultWord(o, tr, ret.value), m.stk),
                   if ret.None? then m.rsp else m.rsp - 8, tr, true, true)
        && LeftBy(o, tr, Run(P, o, m, n).regs)
    decreases args, 5
  {
    hide Step, Run, Start, Ready, ListLeft, Passed, FinishCall, ArgsCode, LeftBy;
    var ret := c.funcs[f].ret;
    var fa := ArgsCode(c, args, tag, 0, 0).code;
    CodeSplit(P, m.pc, fa, FinishCall(f, ret));
    n := ArgsRun(P, c, o, args, c.funcs[f].params, tag, 0, 0, st, m);
    var q := EvalArgs(c, o, args, st, m.trace);
    if q.Vals? && q.ok {
      var m1 := Run(P, o, m, n);
      StartAfter(P, c, o, st, m, m1);
      StartProto(P, c, o, st, m, f);
      var k := FinishCallRuns(P, o, m1, f, ret);
      RunPlus(P, o, m, n, k);
      n := n + k;
    }
  }

  /** Under the static condition that later arguments keep loaded registers, those are the argument
      words. */
  lemma StartPassed(P: seq<Instr>, c: Scope, o: Env, f: Name, args: seq<Expr>, st: Globals, m: State)
    requires Start(P, c, o, st, m) && f in c.funcs && Callable(c.funcs[f]) && CheckArgs(c, args, c.funcs[f].params)
    requires KeepsArgs(c, args, 0, 0) && EvalArgs(c, o, args, st, m.trace).Vals?
    ensures Passed(c, o, args, st, m.trace, 0, 0) == ArgWords(EvalArgs(c, o, args, st, m.trace).vs)
  {
    hide KeepsArgs, CheckArgs, EvalArgs, Passed, ArgWords, WellTyped, RegularCount, FloatCount;
    KeepsPassed(c, o, args, c.funcs[f].params, st, m.trace, 0, 0);
  }

  lemma StartProto(P: seq<Instr>, c: Scope, o: Env, st: Globals, m: State, f: Name)
    requires Start(P, c, o, st, m) && f in c.funcs
    ensures f in o.protos && o.protos[f] == Proto(c.funcs[f].params)
  {}

  lemma {:induction false} CallCase(P: seq<Instr>, c: Scope, o: Env, e: Expr, tag: nat, st: Globals, m: State)
    returns (n: nat)
    requires e.Call? && Start(P, c, o, st, m) && CheckExpr(c, e).Some? && CodeAt(P, m.pc, ExprCode(c, e, tag).code)
    ensures Mirrors(P, o, m, n, |ExprCode(c, e, tag).code|, m.stk, m.rsp - 8, Eval(c, o, e, st, m.trace), true, true)
    ensures Leaving(P, c, o, e, st, m, n)
    decreases e, 1
  {
    hide Left, LeftBy, Step, Run, Start, FinishCall, KeepsArgs, Passed, ArgWords;
    n := CallRuns(P, c, o, e.f, e.args, tag, st, m);
    var q := EvalArgs(c, o, e.args, st, m.trace);
    if q.Vals? && q.ok && KeepsArgs(c, e.args, 0, 0) {
      StartPassed(P, c, o, e.f, e.args, st, m);
      LeftCall(c, o, e, st, m.trace, m.regs, Run(P, o, m, n).regs);
    }
  }
}
