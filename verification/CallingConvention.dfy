/** Section 3.2.3 of the System V AMD64 ABI, with the registers written out: which register holds which
    argument when a foreign function is called. */
module CallingConvention {
  import opened Words
  import opened Syntax
  import opened Typing
  import opened Machine
  import opened Emission
  import opened Semantics
  import opened Registers
  import opened Simulation
  import opened ExprSim
  import opened TypeRules
  import Departures

  lemma RegularRegisters(i: nat)
    requires i < 6
    ensures IntReg(i) == [RDI, RSI, RDX, RCX, R8, R9][i]
  {}

  lemma {:induction false} ReadsAt(ts: seq<Ty>, regs: Regs, ri: nat, fi: nat, i: nat)
    requires i < |ts|
    ensures |ReadArgs(Proto(ts), regs, ri, fi)| == |ts|
    ensures ReadArgs(Proto(ts), regs, ri, fi)[i]
         == Get(regs, if ts[i].TDouble? then XMM(fi + FloatCount(ts[..i])) else IntReg(ri + RegularCount(ts[..i])))
    decreases |ts|
  {
    hide IntReg;
    var ri', fi' := if ts[0].TDouble? then ri else ri + 1, if ts[0].TDouble? then fi + 1 else fi;
    assert Proto(ts)[1..] == Proto(ts[1..]);
    if i > 0 {
      ReadsAt(ts[1..], regs, ri', fi', i - 1);
      assert ts[..i][1..] == ts[1..][..i - 1];
    } else if |ts| > 1 {
      ReadsAt(ts[1..], regs, ri', fi', 0);
    }
  }

  /** The callee reads its i-th parameter from the next free register of its kind, in the order %rdi, %rsi,
      %rdx, %rcx, %r8, %r9, or %xmm0, %xmm1 and so on. */
  lemma ReadsInOrder(ts: seq<Ty>, regs: Regs, i: nat)
    requires i < |ts| && |RegularBefore(ts, |ts|)| <= 6
    ensures |ReadArgs(Proto(ts), regs, 0, 0)| == |ts|
    ensures ts[i] == TDouble ==> ReadArgs(Proto(ts), regs, 0, 0)[i] == Get(regs, XMM(|DoublesBefore(ts, i)|))
    ensures ts[i] != TDouble ==>
              && |RegularBefore(ts, i)| < 6
              && ReadArgs(Proto(ts), regs, 0, 0)[i]
                   == Get(regs, [RDI, RSI, RDX, RCX, R8, R9][|RegularBefore(ts, i)|])
  {
    hide RegularCount, FloatCount, RegularBefore, DoublesBefore, ReadArgs, IntReg;
    ReadsAt(ts, regs, 0, 0, i);
    CountsAre(ts, i);
    CountsAre(ts, |ts|);
    assert ts[..|ts|] == ts;
    FrontEnd.CountsNext(ts, i);
    CountsAre(ts, i + 1);
    if ts[i] != TDouble {
      RegularRegisters(|RegularBefore(ts, i)|);
    }
  }

  /** The register of the i-th parameter. */
  ghost function Register(ts: seq<Ty>, i: nat): Reg
    requires i < |ts| && (ts[i] != TDouble ==> |RegularBefore(ts, i)| < 6)
  {
    if ts[i] == TDouble then XMM(|DoublesBefore(ts, i)|)
    else [RDI, RSI, RDX, RCX, R8, R9][|RegularBefore(ts, i)|]
  }

  /** The word that a C function is to see. */
  function Seen(v: Value): Word {
    match v
    case VInt(w) => w
    case VDouble(bits) => bits
    case VChar(w) => w
    case VBool(b) => if b then 1 else 0
    case VPtr(_) => 0
  }

  /** Arguments are evaluated from the left, each after the trace that the ones before it leave. */
  ghost predicate Evaluates(c: Scope, o: Env, args: seq<Expr>, st: Globals, trs: seq<Trace>, vs: seq<Value>)
    requires |trs| == |args| + 1 && |vs| == |args|
  {
    forall i :: 0 <= i < |args| ==> Eval(c, o, args[i], st, trs[i]) == Val(vs[i], trs[i + 1], true)
  }

  lemma {:induction false} ArgumentsInOrder(c: Scope, o: Env, args: seq<Expr>, st: Globals, trs: seq<Trace>,
                                            vs: seq<Value>)
    requires |trs| == |args| + 1 && |vs| == |args| && Evaluates(c, o, args, st, trs, vs)
    ensures EvalArgs(c, o, args, st, trs[0]) == Vals(vs, trs[|args|], true)
    decreases |args|
  {
    hide Eval;
    if args != [] {
      assert Eval(c, o, args[0], st, trs[0]) == Val(vs[0], trs[1], true);
      ArgumentsInOrder(c, o, args[1..], st, trs[1..], vs[1..]);
      assert vs == [vs[0]] + vs[1..];
    }
  }

  lemma {:induction false} WordsSeen(vs: seq<Value>)
    ensures |ArgWords(vs)| == |vs| && forall i :: 0 <= i < |vs| ==> ArgWords(vs)[i] == Seen(vs[i])
    decreases |vs|
  {
    if vs != [] {
      WordsSeen(vs[1..]);
    }
  }

  /** A call evaluates its arguments, then adds one event with the words the function is to see; its value is
      what the function leaves in %rax, or in %xmm0 for a DOUBLE. */
  lemma CallMeans(c: Scope, o: Env, f: Name, args: seq<Expr>, st: Globals, trs: seq<Trace>, vs: seq<Value>)
    returns (words: seq<Word>)
    requires |trs| == |args| + 1 && |vs| == |args| && Evaluates(c, o, args, st, trs, vs) && f in c.funcs
    ensures |words| == |vs| && forall i :: 0 <= i < |vs| ==> words[i] == Seen(vs[i])
    ensures var tr := trs[|args|] + [Called(f, words)]; var ok := KeepsArgs(c, args, 0, 0);
      var r, ret := Eval(c, o, Call(f, args), st, trs[0]), c.funcs[f].ret;
      && (ret == Some(TInt) ==> r == Val(VInt(Get(o.foreign(tr), RAX)), tr, ok))
      && (ret == Some(TChar) ==> r == Val(VChar(Get(o.foreign(tr), RAX)), tr, ok))
      && (ret == Some(TDouble) ==> r == Val(VDouble(Get(o.foreign(tr), XMM(0))), tr, ok))
  {
    hide Evaluates, EvalArgs, KeepsArgs, ArgWords;
    ArgumentsInOrder(c, o, args, st, trs, vs);
    WordsSeen(vs);
    words := ArgWords(vs);
  }

  /** When the arguments of a call have been evaluated, the register of each parameter holds the word that
      is passed for it, and if no later argument may overwrite a register that is the argument itself. */
  lemma ArgumentRegisters(P: seq<Instr>, c: Scope, o: Env, f: Name, args: seq<Expr>, tag: nat, st: Globals, m: State)
    returns (n: nat)
    requires Start(P, c, o, st, m) && GoodCall(c, f, args) && CodeAt(P, m.pc, ArgsCode(c, args, tag, 0, 0).code)
    requires var q := EvalArgs(c, o, args, st, m.trace); q.Vals? && q.ok
    ensures var m' := Run(P, o, m, n); var ts := c.funcs[f].params;
      var q := EvalArgs(c, o, args, st, m.trace); var p := Passed(c, o, args, st, m.trace, 0, 0);
      && m'.status == Running && m'.pc == m.pc + |ArgsCode(c, args, tag, 0, 0).code| && m'.stk == m.stk
      && |p| == |q.vs| == |ts|
      && forall i {:trigger ts[i]} :: 0 <= i < |ts| ==>
           && (ts[i] != TDouble ==> |RegularBefore(ts, i)| < 6)
           && Get(m'.regs, Register(ts, i)) == p[i]
           && (KeepsArgs(c, args, 0, 0) ==> p[i] == Seen(q.vs[i]))
  {
    hide Step, Run, Start, Passed, EvalArgs, ArgsCode, KeepsArgs, ReadArgs, RegularBefore, DoublesBefore, CodeAt,
      ListLeft, RegularCount, FloatCount, ArgWords;
    var ts := c.funcs[f].params;
    CallShape(c, f, args);
    n := ArgsRun(P, c, o, args, ts, tag, 0, 0, st, m);
    var q, p := EvalArgs(c, o, args, st, m.trace), Passed(c, o, args, st, m.trace, 0, 0);
    Departures.PassedLength(c, o, args, st, m.trace, 0, 0);
    if KeepsArgs(c, args, 0, 0) {
      StartPassed(P, c, o, f, args, st, m);
    }
    forall i | 0 <= i < |ts|
      ensures ts[i] != TDouble ==> |RegularBefore(ts, i)| < 6
      ensures Get(Run(P, o, m, n).regs, Register(ts, i)) == p[i]
      ensures KeepsArgs(c, args, 0, 0) ==> p[i] == Seen(q.vs[i])
    {
      ReadsInOrder(ts, Run(P, o, m, n).regs, i);
      Departures.WordsAt(q.vs, i);
    }
  }

  lemma CallShape(c: Scope, f: Name, args: seq<Expr>)
    requires GoodCall(c, f, args)
    ensures Callable(c.funcs[f]) && CheckArgs(c, args, c.funcs[f].params)
    ensures var ts := c.funcs[f].params;
      && RegularCount(ts) <= 6 && |RegularBefore(ts, |ts|)| <= 6 && |ts| == |args|
      && forall i :: 0 <= i < |ts| ==> !ts[i].TPtr?
  {
    hide RegularBefore, DoublesBefore, RegularCount, FloatCount, CheckArgs, CheckExpr;
    var ts := c.funcs[f].params;
    assert ts[..|ts|] == ts;
    CountsAre(ts, |ts|);
    ArgumentsMatch(c, args, ts);
  }

  // ---------- which arguments may overwrite a register ----------

  /** An expression and everything inside it, up to the arguments of calls. */
  function Inside(e: Expr): set<Expr> {
    match e
    case Deref(a) => {e} + Inside(a)
    case Negate(a) => {e} + Inside(a)
    case Paren(a) => {e} + Inside(a)
    case Conv(a, _) => {e} + Inside(a)
    case Bin(_, l, r) => {e} + Inside(l) + Inside(r)
    case Rel(_, l, r) => {e} + Inside(l) + Inside(r)
    case _ => {e}
  }

  lemma {:induction false} CallsInside(c: Scope, e: Expr)
    ensures CallsOut(c, e)
       <==> (exists p :: p in Inside(e) && (p.Call? || (p.Bin? && p.op == OpMod && TyOf(c, p.l) == TDouble)))
    decreases e
  {
    hide CheckExpr, TyOf;
    match e
    case Deref(a) => CallsInside(c, a);
    case Negate(a) => CallsInside(c, a);
    case Paren(a) => CallsInside(c, a);
    case Conv(a, _) => CallsInside(c, a);
    case Bin(_, l, r) => CallsInside(c, l); CallsInside(c, r); assert e in Inside(e);
    case Rel(_, l, r) => CallsInside(c, l); CallsInside(c, r);
    case Call(_, _) => assert e in Inside(e);
    case _ =>
  }

  lemma {:induction false} MultipliesInside(c: Scope, e: Expr)
    ensures UsesRdx(c, e)
       <==> (exists p :: p in Inside(e) && p.Bin? && (p.op == OpMul || p.op == OpDiv || p.op == OpMod)
                         && TyOf(c, p.l) != TDouble)
    decreases e
  {
    hide CheckExpr, TyOf;
    match e
    case Deref(a) => MultipliesInside(c, a);
    case Negate(a) => MultipliesInside(c, a);
    case Paren(a) => MultipliesInside(c, a);
    case Conv(a, _) => MultipliesInside(c, a);
    case Bin(_, l, r) => MultipliesInside(c, l); MultipliesInside(c, r); assert e in Inside(e);
    case Rel(_, l, r) => MultipliesInside(c, l); MultipliesInside(c, r);
    case _ =>
  }

  lemma {:induction false} KeepsFrom(c: Scope, args: seq<Expr>, ts: seq<Ty>, ri: nat, fi: nat)
    requires CheckArgs(c, args, ts)
    ensures |args| == |ts|
    ensures KeepsArgs(c, args, ri, fi)
       <==> (forall j :: 0 <= j < |args| ==>
               && (ri + fi + j > 0 ==> !CallsOut(c, args[j]))
               && (ri + RegularCount(ts[..j]) >= 3 ==> !UsesRdx(c, args[j])))
    decreases |args|
  {
    hide CheckExpr, CallsOut, UsesRdx;
    if args != [] {
      var ri', fi' := if ts[0].TDouble? then ri else ri + 1, if ts[0].TDouble? then fi + 1 else fi;
      TypeOf(c, args[0], ts[0]);
      KeepsFrom(c, args[1..], ts[1..], ri', fi');
      assert ts[..0] == [];
      forall j | 0 < j < |args| ensures args[j] == args[1..][j - 1]
        && ri + RegularCount(ts[..j]) == ri' + RegularCount(ts[1..][..j - 1])
      {
        assert ts[..j][1..] == ts[1..][..j - 1];
      }
    }
  }

  /** The flag of a call: no argument but the first contains a call or a DOUBLE `%`, and none behind three
      regular ones an INTEGER `*`, `/` or `%`. */
  lemma KeepsExactly(c: Scope, args: seq<Expr>, ts: seq<Ty>)
    requires CheckArgs(c, args, ts)
    ensures |args| == |ts|
    ensures KeepsArgs(c, args, 0, 0)
       <==> (forall j :: 0 <= j < |args| ==>
               && (j > 0 ==> forall p :: p in Inside(args[j]) ==>
                     !p.Call? && !(p.Bin? && p.op == OpMod && TyOf(c, p.l) == TDouble))
               && (|RegularBefore(ts, j)| >= 3 ==> forall p :: p in Inside(args[j]) && p.Bin? ==>
                     !((p.op == OpMul || p.op == OpDiv || p.op == OpMod) && TyOf(c, p.l) != TDouble)))
  {
    hide CheckArgs, CallsOut, UsesRdx, KeepsArgs, Inside, RegularCount, FloatCount, RegularBefore, TyOf;
    KeepsFrom(c, args, ts, 0, 0);
    forall j | 0 <= j < |args|
      ensures RegularCount(ts[..j]) == |RegularBefore(ts, j)|
      ensures CallsOut(c, args[j])
         <==> (exists p :: p in Inside(args[j]) && (p.Call? || (p.Bin? && p.op == OpMod && TyOf(c, p.l) == TDouble)))
      ensures UsesRdx(c, args[j])
         <==> (exists p :: p in Inside(args[j]) && p.Bin? && (p.op == OpMul || p.op == OpDiv || p.op == OpMod)
                           && TyOf(c, p.l) != TDouble)
    {
      CountsAre(ts, j);
      CallsInside(c, args[j]);
      MultipliesInside(c, args[j]);
    }
  }
}
