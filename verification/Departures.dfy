/** Where the emitted code departs from the evident intent: what each sequence does as written, and
    exactly when that is what was meant. */
module Departures {
  import opened Words
  import opened Syntax
  import opened Typing
  import opened Machine
  import opened Emission
  import opened Semantics
  import opened Registers
  import opened Simulation
  import opened Fragments
  import opened ExprSim

  /** `pushq $imm32` sign-extends: a literal keeps its value iff it is outside [2^31, 2^32), and
      otherwise the top half is all ones. */
  lemma LiteralsSignExtend(w: Word)
    ensures LiteralEmitted(w) == w <==> !(0x8000_0000 <= w < 0x1_0000_0000)
    ensures 0x8000_0000 <= w < 0x1_0000_0000 ==> LiteralEmitted(w) == w + 0xFFFF_FFFF_0000_0000
  {}

  /** INTEGER `%` pushes the quotient. That is the remainder iff the dividend is a multiple of the
      divisor plus one, at most divisor minus one times. */
  lemma RemainderIsQuotient(a: Word, b: Word)
    requires b != 0
    ensures IntEmitted(OpMod, a, b) == IntEmitted(OpDiv, a, b)
    ensures IntEmitted(OpMod, a, b) == a % b <==> a % (b + 1) == 0 && a / (b + 1) < b
  {
    if a / b == a % b {
      MultipleOf(a, b + 1, a / b);
    }
    if a % (b + 1) == 0 && a / (b + 1) < b {
      var q := a / (b + 1);
      assert a == q * b + q by {
        assert a == q * (b + 1);
      }
      QuotientOf(a, b, q, q);
    }
  }

  lemma MultipleOf(a: nat, d: nat, q: nat)
    requires d > 1 && a / (d - 1) == q && a % (d - 1) == q
    ensures a % d == 0 && a / d == q
  {
    assert a == q * (d - 1) + q;
    assert a == q * d + 0;
    QuotientOf(a, d, q, 0);
  }

  lemma {:induction false} NextMultiple(d: nat, p: nat, q: nat)
    requires p < q
    ensures p * d + d <= q * d
    decreases q - p
  {
    if p + 1 < q {
      NextMultiple(d, p + 1, q);
      assert (p + 1) * d == p * d + d;
    } else {
      assert q * d == p * d + d;
    }
  }

  lemma Division(a: nat, d: nat)
    requires d > 0
    ensures a == a / d * d + a % d && 0 <= a % d < d
  {}

  /** Quotient and remainder are unique. */
  lemma QuotientOf(a: nat, d: nat, q: nat, r: nat)
    requires d > 0 && a == q * d + r && r < d
    ensures a / d == q && a % d == r
  {
    Division(a, d);
    var p := a / d;
    if p < q {
      NextMultiple(d, p, q);
    } else if q < p {
      NextMultiple(d, q, p);
    }
  }

  /** `&&` pushes the left operand: the conjunction iff the left is false or the right is true. */
  lemma AndIsLeft(a: bool, b: bool)
    ensures IntEmitted(OpAnd, Truth(a), Truth(b)) == Truth(a)
    ensures IntEmitted(OpAnd, Truth(a), Truth(b)) == Truth(a && b) <==> (!a || b)
  {}

  /** DOUBLE to CHAR emits nothing, so the bit pattern of the DOUBLE stays on the stack. */
  lemma DoubleToChar(o: Env, bits: Word)
    ensures ConvCode(TDouble, TChar) == []
    ensures ConvEmitted(o, VDouble(bits), TDouble, TChar) == bits
    ensures ConvEmitted(o, VDouble(bits), TDouble, TChar) == Enc(o, ConvMeaning(o, VDouble(bits), TChar, []).v)
       <==> Wrap(o.fl.toInt(bits)) == bits
  {}

  /** A CHAR, be it a literal, a variable or a conversion, converts to CHAR and to no other type. */
  lemma NoWayBackFromChar(c: Scope, e: Expr, te: TypeExpr)
    requires CheckExpr(c, e) == Some(TChar)
    ensures CheckExpr(c, Conv(e, te)).Some? <==> Resolve(c.aliases, te) == Some(TChar)
  {}

  /** INTEGER to DOUBLE reads the word as signed: from 2^63 on it converts the word minus 2^64. */
  lemma IntegerToDoubleIsSigned(o: Env, w: Word)
    ensures w < HALF ==> ConvEmitted(o, VInt(w), TInt, TDouble) == Enc(o, ConvMeaning(o, VInt(w), TDouble, []).v)
    ensures w >= HALF ==> ConvEmitted(o, VInt(w), TInt, TDouble) == o.fl.ofInt(w - 0x1_0000_0000_0000_0000)
  {}

  /** A result that is not VOID stays on the stack of a call statement: one word each time. */
  lemma CallStatementsLeak(c: Scope, o: Env, f: Name, args: seq<Expr>, s: SourceState, fuel: nat)
    requires WellTyped(c, s.st) && CheckStmt(c, CallStmt(f, args))
    ensures var r := Exec(c, o, CallStmt(f, args), s, fuel);
      r.Done? ==>
        && Depth(r.s.leaks) == Depth(s.leaks) + (if c.funcs[f].ret.Some? then 1 else 0)
        && (c.funcs[f].ret.None? ==> r.s.leaks == s.leaks)
  {
    hide EvalArgs, KeepsArgs;
  }

  /** No other statement leaves anything: without call statements the stack is where it was. */
  predicate CallsNoStatement(t: Stmt)
    decreases t
  {
    match t
    case CallStmt(_, _) => false
    case IfElse(_, a, b) => CallsNoStatement(a) && CallsNoStatement(b)
    case IfOnly(_, a) => CallsNoStatement(a)
    case Loop(_, b) => CallsNoStatement(b)
    case ForTo(_, _, _, _, b) => CallsNoStatement(b)
    case Block(ss, _) => forall i :: 0 <= i < |ss| ==> CallsNoStatement(ss[i])
    case _ => true
  }

  lemma {:induction false} OthersDoNotLeak(c: Scope, o: Env, t: Stmt, s: SourceState, fuel: nat)
    requires CallsNoStatement(t)
    ensures var r := Exec(c, o, t, s, fuel); r.Done? ==> r.s.leaks == s.leaks
    decreases fuel, t, 0
  {
    hide Eval;
    match t
    case IfElse(e, a, b) =>
      var r := Eval(c, o, e, s.st, s.tr);
      if r.Val? {
        OthersDoNotLeak(c, o, a, s.(tr := r.tr), fuel);
        OthersDoNotLeak(c, o, b, s.(tr := r.tr), fuel);
      }
    case IfOnly(e, a) =>
      var r := Eval(c, o, e, s.st, s.tr);
      if r.Val? {
        OthersDoNotLeak(c, o, a, s.(tr := r.tr), fuel);
      }
    case Loop(e, b) =>
      var r := Eval(c, o, e, s.st, s.tr);
      if fuel > 0 && r.Val? {
        OthersDoNotLeak(c, o, b, s.(tr := r.tr), fuel);
        var q := Exec(c, o, b, s.(tr := r.tr), fuel);
        if q.Done? {
          OthersDoNotLeak(c, o, t, q.s, fuel - 1);
        }
      }
    case ForTo(x, k, from, to, b) =>
      var r := ExecAssign(c, o, x, k, from, s);
      if r.Done? {
        RoundsDoNotLeak(c, o, x, to, b, r.s, fuel);
      }
    case Block(ss, _) => AllDoNotLeak(c, o, ss, s, fuel);
    case _ =>
  }

  lemma BumpLeaks()
    ensures forall s: SourceState, x :: x in s.st && s.st[x].VInt? ==> Bump(s, x).leaks == s.leaks
  {}

  lemma {:induction false} RoundsDoNotLeak(c: Scope, o: Env, x: Name, to: Expr, b: Stmt, s: SourceState, fuel: nat)
    requires CallsNoStatement(b)
    ensures var r := ExecFor(c, o, x, to, b, s, fuel); r.Done? ==> r.s.leaks == s.leaks
    decreases fuel, b, 1
  {
    hide Eval, CallsNoStatement, Bump;
    BumpLeaks();
    var r := Eval(c, o, to, s.st, s.tr);
    if fuel > 0 && r.Val? {
      OthersDoNotLeak(c, o, b, s.(tr := r.tr), fuel);
      var q := Exec(c, o, b, s.(tr := r.tr), fuel);
      if q.Done? && x in q.s.st && q.s.st[x].VInt? {
        RoundsDoNotLeak(c, o, x, to, b, Bump(q.s, x), fuel - 1);
      }
    }
  }

  lemma {:induction false} AllDoNotLeak(c: Scope, o: Env, ss: seq<Stmt>, s: SourceState, fuel: nat)
    requires forall i :: 0 <= i < |ss| ==> CallsNoStatement(ss[i])
    ensures var r := ExecAll(c, o, ss, s, fuel); r.Done? ==> r.s.leaks == s.leaks
    decreases fuel, ss, 0
  {
    hide CallsNoStatement;
    if ss != [] {
      OthersDoNotLeak(c, o, ss[0], s, fuel);
      var q := Exec(c, o, ss[0], s, fuel);
      if q.Done? {
        AllDoNotLeak(c, o, ss[1..], q.s, fuel);
      }
    }
  }

  // ---------- arguments that are overwritten ----------

  /** The register of the i-th argument of a list. */
  function TargetAt(ts: seq<Ty>, ri: nat, fi: nat, i: nat): Reg
    requires i < |ts|
    decreases i
  {
    if i == 0 then ArgTarget(ts[0], ri, fi)
    else if ts[0].TDouble? then TargetAt(ts[1..], ri, fi + 1, i - 1)
    else TargetAt(ts[1..], ri + 1, fi, i - 1)
  }

  predicate SomeWritesRdx(c: Scope, args: seq<Expr>) {
    exists i :: 0 <= i < |args| && WritesRdx(c, args[i])
  }

  /** A later argument writes the register of the i-th. */
  predicate Overwritten(c: Scope, args: seq<Expr>, ts: seq<Ty>, ri: nat, fi: nat, i: nat)
    requires i < |args| == |ts|
  {
    if TargetAt(ts, ri, fi, i) == RDX then SomeWritesRdx(c, args[i + 1..]) else SomeCallsOut(c, args[i + 1..])
  }

  /** The j-th argument is the last to write %rdx, in which the i-th is passed. */
  predicate LastToWrite(c: Scope, args: seq<Expr>, ts: seq<Ty>, ri: nat, fi: nat, i: nat, j: nat)
    requires i < |args| == |ts|
  {
    && TargetAt(ts, ri, fi, i) == RDX && i < j < |args| && WritesRdx(c, args[j])
    && forall k :: j < k < |args| ==> !WritesRdx(c, args[k])
  }

  lemma TraceNext(c: Scope, o: Env, args: seq<Expr>, st: Globals, tr: Trace, j: nat)
    requires 0 < j <= |args| && Eval(c, o, args[0], st, tr).Val?
    ensures TraceAt(c, o, args, st, tr, j) == TraceAt(c, o, args[1..], st, Eval(c, o, args[0], st, tr).tr, j - 1)
  {
    hide Eval;
  }

  lemma {:induction false} SameLength(c: Scope, args: seq<Expr>, ts: seq<Ty>)
    requires CheckArgs(c, args, ts)
    ensures |args| == |ts|
    decreases |args|
  {
    hide CheckExpr;
    if args != [] {
      SameLength(c, args[1..], ts[1..]);
    }
  }

  /** What the callee reads for the i-th argument of any list, as written: the argument's own word if no
      later argument writes its register, and else, in every register but %rdx, what the last of all
      the calls in the arguments left there. */
  lemma {:induction false} LaterCallClobbers(c: Scope, o: Env, args: seq<Expr>, ts: seq<Ty>, st: Globals, tr: Trace,
                                             ri: nat, fi: nat, i: nat)
    requires WellTyped(c, st) && CheckArgs(c, args, ts) && ri + RegularCount(ts) <= 6 && i < |args| == |ts|
    requires EvalArgs(c, o, args, st, tr).Vals?
    ensures var q := EvalArgs(c, o, args, st, tr);
      var p := Passed(c, o, args, st, tr, ri, fi);
      var r := TargetAt(ts, ri, fi, i);
      && |p| == |q.vs| == |args|
      && (!Overwritten(c, args, ts, ri, fi, i) ==> p[i] == ArgWord(q.vs[i]))
      && (Overwritten(c, args, ts, ri, fi, i) && r != RDX ==> p[i] == Get(o.foreign(q.tr), r))
    decreases |args|
  {
    hide WellTyped, Eval, CheckExpr, WritesRdx, LoadedBefore, ArgTarget, ArgsLeave, Leaves, SomeCallsOut;
    var q := Eval(c, o, args[0], st, tr);
    var t := ts[0];
    TypeOf(c, args[0], t);
    var ri', fi' := if t.TDouble? then ri else ri + 1, if t.TDouble? then fi + 1 else fi;
    var rest := EvalArgs(c, o, args[1..], st, q.tr);
    PassedLength(c, o, args[1..], st, q.tr, ri', fi');
    if i == 0 {
      TargetLoaded(ri, fi, t);
      var r := ArgTarget(t, ri, fi);
      if r != RDX {
        ArgsLeft(c, o, args[1..], ts[1..], st, q.tr, ri', fi', r, ArgWord(q.v));
      } else if !Overwritten(c, args, ts, ri, fi, 0) {
        RdxSpared(c, o, args[1..], ts[1..], st, q.tr, ri', fi', ArgWord(q.v));
      }
    } else {
      assert args[1..][i..] == args[i + 1..];
      LaterCallClobbers(c, o, args[1..], ts[1..], st, q.tr, ri', fi', i - 1);
    }
  }

  /** In %rdx it is what the last argument that calls out, multiplies or divides left there. */
  lemma {:induction false} LaterWriteClobbersRdx(c: Scope, o: Env, args: seq<Expr>, ts: seq<Ty>, st: Globals, tr: Trace,
                                                 ri: nat, fi: nat, i: nat, j: nat)
    requires WellTyped(c, st) && CheckArgs(c, args, ts) && ri + RegularCount(ts) <= 6 && i < |args| == |ts|
    requires EvalArgs(c, o, args, st, tr).Vals? && LastToWrite(c, args, ts, ri, fi, i, j)
    ensures i < |Passed(c, o, args, st, tr, ri, fi)|
    ensures Passed(c, o, args, st, tr, ri, fi)[i] == Leaves(c, o, args[j], st, TraceAt(c, o, args, st, tr, j), RDX, 0)
    decreases |args|
  {
    hide WellTyped, Eval, CheckExpr, WritesRdx, LoadedBefore, ArgTarget, ArgsLeave, Leaves, TraceAt;
    var q := Eval(c, o, args[0], st, tr);
    var t := ts[0];
    TypeOf(c, args[0], t);
    var ri', fi' := if t.TDouble? then ri else ri + 1, if t.TDouble? then fi + 1 else fi;
    TraceNext(c, o, args, st, tr, j);
    if i == 0 {
      TargetLoaded(ri, fi, t);
      LastRdxLeaves(c, o, args[1..], ts[1..], st, q.tr, ri', fi', ArgWord(q.v), j - 1);
    } else {
      LaterWriteClobbersRdx(c, o, args[1..], ts[1..], st, q.tr, ri', fi', i - 1, j - 1);
    }
  }

  lemma {:induction false} PassedLength(c: Scope, o: Env, args: seq<Expr>, st: Globals, tr: Trace, ri: nat, fi: nat)
    requires EvalArgs(c, o, args, st, tr).Vals?
    ensures |Passed(c, o, args, st, tr, ri, fi)| == |EvalArgs(c, o, args, st, tr).vs| == |args|
    decreases |args|
  {
    hide Eval, ArgsLeave;
    if args != [] {
      var q := Eval(c, o, args[0], st, tr);
      var t := TyOf(c, args[0]);
      PassedLength(c, o, args[1..], st, q.tr, if t.TDouble? then ri else ri + 1, if t.TDouble? then fi + 1 else fi);
    }
  }

  lemma {:induction false} WordsAt(vs: seq<Value>, i: nat)
    requires i < |vs|
    ensures |ArgWords(vs)| == |vs| && ArgWords(vs)[i] == ArgWord(vs[i])
    decreases |vs|
  {
    if |vs| > 1 {
      WordsAt(vs[1..], if i > 0 then i - 1 else 0);
    }
  }

  /** The callee reads the words that are meant iff every overwritten register was left with the word it
      was loaded with. */
  lemma ReadsAsMeant(c: Scope, o: Env, args: seq<Expr>, ts: seq<Ty>, st: Globals, tr: Trace)
    requires WellTyped(c, st) && CheckArgs(c, args, ts) && RegularCount(ts) <= 6
    requires EvalArgs(c, o, args, st, tr).Vals?
    ensures var vs := EvalArgs(c, o, args, st, tr).vs;
      var p := Passed(c, o, args, st, tr, 0, 0);
      && |p| == |vs| == |args| == |ts|
      && (p == ArgWords(vs) <==>
            forall i :: 0 <= i < |args| && Overwritten(c, args, ts, 0, 0, i) ==> p[i] == ArgWord(vs[i]))
  {
    hide WellTyped, EvalArgs, CheckArgs, Passed, Overwritten, ArgWords, RegularCount;
    SameLength(c, args, ts);
    PassedLength(c, o, args, st, tr, 0, 0);
    var vs := EvalArgs(c, o, args, st, tr).vs;
    var p := Passed(c, o, args, st, tr, 0, 0);
    WordsLength(vs);
    forall i | 0 <= i < |args|
      ensures ArgWords(vs)[i] == ArgWord(vs[i])
      ensures !Overwritten(c, args, ts, 0, 0, i) ==> p[i] == ArgWord(vs[i])
    {
      WordsAt(vs, i);
      LaterCallClobbers(c, o, args, ts, st, tr, 0, 0, i);
    }
    assert p == ArgWords(vs) <==> forall i :: 0 <= i < |args| ==> p[i] == ArgWord(vs[i]);
  }

  lemma WordsLength(vs: seq<Value>)
    ensures |ArgWords(vs)| == |vs|
  {
    if vs != [] {
      WordsAt(vs, 0);
    }
  }

  /** What an INTEGER product or quotient leaves in %rdx, whatever was there: the high word of the
      product, or the remainder. */
  lemma RdxLeft(c: Scope, o: Env, e: Expr, st: Globals, tr: Trace, w: Word)
    requires e.Bin? && EvalOperands(c, o, e, st, tr).Both?
    requires var q := EvalOperands(c, o, e, st, tr); q.a.VInt? && q.b.VInt?
    ensures var q := EvalOperands(c, o, e, st, tr);
      && (e.op == OpMul ==> Leaves(c, o, e, st, tr, RDX, w) == q.a.w * q.b.w / 0x1_0000_0000_0000_0000)
      && ((e.op == OpDiv || e.op == OpMod) && q.b.w != 0 ==> Leaves(c, o, e, st, tr, RDX, w) == q.a.w % q.b.w)
  {
    hide EvalOperands, OperandsLeave;
    var q := EvalOperands(c, o, e, st, tr);
    HighWord(q.a.w, q.b.w);
  }

  lemma HighWord(a: Word, b: Word)
    ensures 0 <= a * b / 0x1_0000_0000_0000_0000 < 0x1_0000_0000_0000_0000
  {
    ProductBelow(a, b, 0x1_0000_0000_0000_0000);
  }

  lemma ProductBelow(a: nat, b: nat, k: nat)
    requires a < k && b < k
    ensures 0 <= a * b && a * b / k < k
  {
    var n := a * b;
    assert n <= a * k by {
      assert a * (k - b) >= 0;
    }
    Division(n, k);
    if n / k > a {
      NextMultiple(k, a, n / k);
    }
  }
}
