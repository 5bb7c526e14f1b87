/** Trees and text: any tree prints with the fewest parentheses that parse back to it, and the
    parentheses change neither its type, nor its code, nor its meaning. */
module Parentheses {
  import opened Syntax
  import opened Typing
  import opened Machine
  import opened Emission
  import opened Grammar
  import opened RoundTrip
  import opened Semantics

  /** The tree without its parentheses. */
  function Erase(e: Expr): Expr
    decreases e, 1
  {
    match e
    case Paren(a) => Erase(a)
    case Deref(a) => Deref(Erase(a))
    case Negate(a) => Negate(Erase(a))
    case Bin(op, l, r) => Bin(op, Erase(l), Erase(r))
    case Rel(op, l, r) => Rel(op, Erase(l), Erase(r))
    case Conv(a, te) => Conv(Erase(a), te)
    case Call(f, args) => Call(f, EraseAll(args))
    case _ => e
  }

  function EraseAll(args: seq<Expr>): (r: seq<Expr>)
    ensures |r| == |args|
    ensures forall i :: 0 <= i < |args| ==> r[i] == Erase(args[i])
    decreases args, 0
  {
    if args == [] then [] else [Erase(args[0])] + EraseAll(args[1..])
  }

  function Guard(m: Expr, k: nat): Expr {
    if Level(m) <= k then m else Paren(m)
  }

  /** A `!` may not be dereferenced without parentheses. */
  function GuardDeref(m: Expr): Expr {
    if m.Negate? then Paren(m) else Guard(m, 1)
  }

  /** Parentheses exactly where the grammar asks for them. */
  function Minimal(e: Expr): Expr
    decreases e, 1
  {
    match e
    case Deref(a) => Deref(GuardDeref(Minimal(a)))
    case Negate(a) => Negate(Guard(Minimal(a), 1))
    case Bin(op, l, r) =>
      if IsMulOp(op) then Bin(op, Guard(Minimal(l), 2), Guard(Minimal(r), 1))
      else Bin(op, Guard(Minimal(l), 3), Guard(Minimal(r), 2))
    case Rel(op, l, r) => Rel(op, Guard(Minimal(l), 3), Guard(Minimal(r), 3))
    case Conv(a, te) => Conv(Minimal(a), te)
    case Call(f, args) => Call(f, MinimalAll(args))
    case Paren(a) => Minimal(a)
    case _ => e
  }

  function MinimalAll(args: seq<Expr>): (r: seq<Expr>)
    ensures |r| == |args|
    ensures forall i :: 0 <= i < |args| ==> r[i] == Minimal(args[i])
    decreases args, 0
  {
    if args == [] then [] else [Minimal(args[0])] + MinimalAll(args[1..])
  }

  /** Names are identifiers and literals are literals: what no parentheses can mend. */
  predicate Lexical(e: Expr)
    decreases e
  {
    match e
    case Lit(t) => IsLiteral(t)
    case Var(x) => x.Id?
    case Ref(x) => x.Id?
    case Deref(a) => Lexical(a)
    case Negate(a) => Lexical(a)
    case Paren(a) => Lexical(a)
    case Bin(_, l, r) => Lexical(l) && Lexical(r)
    case Rel(_, l, r) => Lexical(l) && Lexical(r)
    case Conv(a, te) => Lexical(a) && PlainType(te)
    case Call(f, args) => f.Id? && forall i :: 0 <= i < |args| ==> Lexical(args[i])
  }

  lemma {:induction false} FitsLexical(e: Expr, k: nat)
    requires Fits(e, k)
    ensures Lexical(e)
    decreases e
  {
    match e
    case Deref(a) => FitsLexical(a, 1);
    case Negate(a) => FitsLexical(a, 1);
    case Paren(a) => FitsLexical(a, 4);
    case Bin(op, l, r) => FitsLexical(l, if IsMulOp(op) then 2 else 3); FitsLexical(r, if IsMulOp(op) then 1 else 2);
    case Rel(_, l, r) => FitsLexical(l, 3); FitsLexical(r, 3);
    case Conv(a, _) => FitsLexical(a, 4);
    case Call(_, args) =>
      forall i | 0 <= i < |args| ensures Lexical(args[i]) {
        FitsLexical(args[i], 4);
      }
    case _ =>
  }

  lemma {:induction false} EraseLexical(e: Expr)
    ensures Lexical(Erase(e)) <==> Lexical(e)
    decreases e
  {
    match e
    case Deref(a) => EraseLexical(a);
    case Negate(a) => EraseLexical(a);
    case Paren(a) => EraseLexical(a);
    case Bin(_, l, r) => EraseLexical(l); EraseLexical(r);
    case Rel(_, l, r) => EraseLexical(l); EraseLexical(r);
    case Conv(a, _) => EraseLexical(a);
    case Call(_, args) =>
      forall i | 0 <= i < |args| ensures Lexical(EraseAll(args)[i]) <==> Lexical(args[i]) {
        EraseLexical(args[i]);
      }
    case _ =>
  }

  /** The result fits the grammar. */
  lemma {:induction false} MinimalFits(e: Expr)
    requires Lexical(e)
    ensures Fits(Minimal(e), 4)
    decreases e
  {
    match e
    case Deref(a) =>
      MinimalFits(a);
      GuardFits(Minimal(a), 1);
    case Negate(a) =>
      MinimalFits(a);
      GuardFits(Minimal(a), 1);
    case Bin(op, l, r) =>
      MinimalFits(l);
      MinimalFits(r);
      GuardFits(Minimal(l), if IsMulOp(op) then 2 else 3);
      GuardFits(Minimal(r), if IsMulOp(op) then 1 else 2);
    case Rel(_, l, r) =>
      MinimalFits(l);
      MinimalFits(r);
      GuardFits(Minimal(l), 3);
      GuardFits(Minimal(r), 3);
    case Conv(a, _) => MinimalFits(a);
    case Call(_, args) =>
      forall i | 0 <= i < |args| ensures Fits(Minimal(args[i]), 4) {
        MinimalFits(args[i]);
      }
    case Paren(a) => MinimalFits(a);
    case _ =>
  }

  lemma GuardFits(m: Expr, k: nat)
    requires Fits(m, 4)
    ensures Fits(Guard(m, k), k)
    ensures k == 1 ==> Fits(GuardDeref(m), 1) && !GuardDeref(m).Negate?
  {
    if Level(m) <= k {
      FitsAtLevel(m, k);
    }
  }

  lemma FitsAtLevel(m: Expr, k: nat)
    requires Fits(m, 4) && Level(m) <= k
    ensures Fits(m, k)
  {}

  /** Only parentheses are added or removed. */
  lemma {:induction false} MinimalErases(e: Expr)
    ensures Erase(Minimal(e)) == Erase(e)
    decreases e
  {
    match e
    case Deref(a) => MinimalErases(a);
    case Negate(a) => MinimalErases(a);
    case Bin(_, l, r) =>
      MinimalErases(l);
      MinimalErases(r);
    case Rel(_, l, r) =>
      MinimalErases(l);
      MinimalErases(r);
    case Conv(a, _) => MinimalErases(a);
    case Call(_, args) =>
      forall i | 0 <= i < |args| ensures Erase(Minimal(args[i])) == Erase(args[i]) {
        MinimalErases(args[i]);
      }
      assert EraseAll(MinimalAll(args)) == EraseAll(args);
    case Paren(a) => MinimalErases(a);
    case _ =>
  }

  // ---------- the fewest tokens ----------

  lemma {:induction false} ArgsLength(a: seq<Expr>, b: seq<Expr>)
    requires |a| == |b| && forall i :: 0 <= i < |a| ==> |Print(a[i])| <= |Print(b[i])|
    ensures |PrintArgs(a)| <= |PrintArgs(b)|
    decreases |a|
  {
    if |a| > 1 {
      assert forall i :: 0 <= i < |a[1..]| ==> |Print(a[1..][i])| <= |Print(b[1..][i])|;
      ArgsLength(a[1..], b[1..]);
    }
  }

  lemma {:induction false} MinimalLeast(e: Expr, k: nat)
    requires Fits(e, k)
    ensures |Print(Guard(Minimal(e), k))| <= |Print(e)|
    ensures k == 1 && !e.Negate? ==> |Print(GuardDeref(Minimal(e)))| <= |Print(e)|
    ensures |Print(Minimal(e))| <= |Print(e)|
    decreases e
  {
    match e
    case Deref(a) => MinimalLeast(a, 1);
    case Negate(a) => MinimalLeast(a, 1);
    case Bin(op, l, r) =>
      MinimalLeast(l, if IsMulOp(op) then 2 else 3);
      MinimalLeast(r, if IsMulOp(op) then 1 else 2);
    case Rel(_, l, r) =>
      MinimalLeast(l, 3);
      MinimalLeast(r, 3);
    case Conv(a, _) => MinimalLeast(a, 4);
    case Call(_, args) =>
      forall i | 0 <= i < |args| ensures |Print(Minimal(args[i]))| <= |Print(args[i])| {
        MinimalLeast(args[i], 4);
      }
      ArgsLength(MinimalAll(args), args);
    case Paren(a) => MinimalLeast(a, 4);
    case _ =>
  }

  /** The minimal form only depends on the tree without parentheses. */
  lemma {:induction false} MinimalOfErased(e: Expr)
    ensures Minimal(Erase(e)) == Minimal(e)
    decreases e
  {
    match e
    case Deref(a) => MinimalOfErased(a);
    case Negate(a) => MinimalOfErased(a);
    case Bin(_, l, r) =>
      MinimalOfErased(l);
      MinimalOfErased(r);
    case Rel(_, l, r) =>
      MinimalOfErased(l);
      MinimalOfErased(r);
    case Conv(a, _) => MinimalOfErased(a);
    case Call(_, args) =>
      forall i | 0 <= i < |args| ensures Minimal(Erase(args[i])) == Minimal(args[i]) {
        MinimalOfErased(args[i]);
      }
      assert MinimalAll(EraseAll(args)) == MinimalAll(args);
    case Paren(a) => MinimalOfErased(a);
    case _ =>
  }

  /** No text that parses to the same tree up to parentheses is shorter. */
  lemma FewestTokens(e: Expr, ts: seq<Token>)
    requires ParseExpr(ts).Got? && Erase(ParseExpr(ts).v) == Erase(e)
    ensures |Print(Minimal(e))| <= |ts| - |ParseExpr(ts).rest|
  {
    hide ParseExpr, Print, Minimal, Erase, Fits;
    var r := ParseExpr(ts);
    ExprSound(ts);
    MinimalOfErased(e);
    MinimalOfErased(r.v);
    MinimalLeast(r.v, 4);
  }

  // ---------- parentheses mean nothing ----------

  lemma {:induction false} EraseChecks(c: Scope, e: Expr)
    ensures CheckExpr(c, Erase(e)) == CheckExpr(c, e)
    decreases e, 1
  {
    match e
    case Deref(a) => EraseChecks(c, a);
    case Negate(a) => EraseChecks(c, a);
    case Paren(a) => EraseChecks(c, a);
    case Bin(_, l, r) =>
      EraseChecks(c, l);
      EraseChecks(c, r);
    case Rel(_, l, r) =>
      EraseChecks(c, l);
      EraseChecks(c, r);
    case Conv(a, _) => EraseChecks(c, a);
    case Call(f, args) =>
      if f in c.funcs {
        EraseChecksArgs(c, args, c.funcs[f].params);
      }
    case _ =>
  }

  lemma {:induction false} EraseChecksArgs(c: Scope, args: seq<Expr>, ts: seq<Ty>)
    ensures CheckArgs(c, EraseAll(args), ts) == CheckArgs(c, args, ts)
    decreases args, 0
  {
    if args != [] {
      EraseChecks(c, args[0]);
      if ts != [] {
        EraseChecksArgs(c, args[1..], ts[1..]);
      }
      assert EraseAll(args)[1..] == EraseAll(args[1..]);
    }
  }

  lemma {:induction false} EraseCodes(c: Scope, e: Expr, tag: nat)
    ensures ExprCode(c, Erase(e), tag) == ExprCode(c, e, tag)
    decreases e, 1
  {
    match e
    case Deref(a) => EraseCodes(c, a, tag);
    case Negate(a) => EraseCodes(c, a, tag);
    case Paren(a) => EraseCodes(c, a, tag);
    case Bin(_, l, r) => EraseOperands(c, e, tag);
    case Rel(_, l, r) => EraseOperands(c, e, tag);
    case Conv(a, _) =>
      EraseCodes(c, a, tag);
      EraseChecks(c, a);
    case Call(_, args) => EraseArgs(c, args, tag, 0, 0);
    case _ =>
  }

  lemma {:induction false} EraseOperands(c: Scope, e: Expr, tag: nat)
    requires e.Bin? || e.Rel?
    ensures OperandsCode(c, Erase(e), tag) == OperandsCode(c, e, tag)
    ensures TyOf(c, Erase(e.l)) == TyOf(c, e.l)
    decreases e, 0
  {
    EraseCodes(c, e.l, tag);
    EraseCodes(c, e.r, ExprCode(c, e.l, tag).tag);
    EraseChecks(c, e.l);
  }

  lemma {:induction false} EraseArgs(c: Scope, args: seq<Expr>, tag: nat, ri: nat, fi: nat)
    ensures ArgsCode(c, EraseAll(args), tag, ri, fi) == ArgsCode(c, args, tag, ri, fi)
    decreases args, 0
  {
    if args != [] {
      EraseCodes(c, args[0], tag);
      EraseChecks(c, args[0]);
      var fa := ExprCode(c, args[0], tag);
      EraseArgs(c, args[1..], fa.tag, ri, fi + 1);
      EraseArgs(c, args[1..], fa.tag, ri + 1, fi);
      assert EraseAll(args)[1..] == EraseAll(args[1..]);
    }
  }

  lemma {:induction false} EraseCalls(c: Scope, e: Expr)
    ensures CallsOut(c, Erase(e)) == CallsOut(c, e) && UsesRdx(c, Erase(e)) == UsesRdx(c, e)
    decreases e
  {
    match e
    case Deref(a) => EraseCalls(c, a);
    case Negate(a) => EraseCalls(c, a);
    case Paren(a) => EraseCalls(c, a);
    case Bin(_, l, r) =>
      EraseCalls(c, l);
      EraseCalls(c, r);
      EraseChecks(c, l);
    case Rel(_, l, r) =>
      EraseCalls(c, l);
      EraseCalls(c, r);
    case Conv(a, _) => EraseCalls(c, a);
    case _ =>
  }

  lemma {:induction false} EraseKeepsArgs(c: Scope, args: seq<Expr>, ri: nat, fi: nat)
    ensures KeepsArgs(c, EraseAll(args), ri, fi) == KeepsArgs(c, args, ri, fi)
    decreases |args|
  {
    if args != [] {
      EraseCalls(c, args[0]);
      EraseChecks(c, args[0]);
      EraseKeepsArgs(c, args[1..], ri, fi + 1);
      EraseKeepsArgs(c, args[1..], ri + 1, fi);
      assert EraseAll(args)[1..] == EraseAll(args[1..]);
    }
  }

  lemma {:induction false} EraseEvals(c: Scope, o: Env, e: Expr, st: Globals, tr: Trace)
    ensures Eval(c, o, Erase(e), st, tr) == Eval(c, o, e, st, tr)
    decreases e, 1
  {
    hide BinMeaning, RelMeaning, ConvMeaning, DerefMeaning, KeepsArgs;
    match e
    case Deref(a) => EraseEvals(c, o, a, st, tr);
    case Negate(a) => EraseEvals(c, o, a, st, tr);
    case Paren(a) => EraseEvals(c, o, a, st, tr);
    case Bin(_, l, r) => EraseEvalsBoth(c, o, e, st, tr);
    case Rel(_, l, r) => EraseEvalsBoth(c, o, e, st, tr);
    case Conv(a, _) => EraseEvals(c, o, a, st, tr);
    case Call(_, args) =>
      EraseEvalsArgs(c, o, args, st, tr);
      EraseKeepsArgs(c, args, 0, 0);
    case _ =>
  }

  lemma {:induction false} EraseEvalsBoth(c: Scope, o: Env, e: Expr, st: Globals, tr: Trace)
    requires e.Bin? || e.Rel?
    ensures EvalOperands(c, o, Erase(e), st, tr) == EvalOperands(c, o, e, st, tr)
    decreases e, 0
  {
    EraseEvals(c, o, e.l, st, tr);
    var r := Eval(c, o, e.l, st, tr);
    if r.Val? {
      EraseEvals(c, o, e.r, st, r.tr);
    }
  }

  lemma {:induction false} EraseEvalsArgs(c: Scope, o: Env, args: seq<Expr>, st: Globals, tr: Trace)
    ensures EvalArgs(c, o, EraseAll(args), st, tr) == EvalArgs(c, o, args, st, tr)
    decreases args, 0
  {
    if args != [] {
      EraseEvals(c, o, args[0], st, tr);
      var r := Eval(c, o, args[0], st, tr);
      if r.Val? {
        EraseEvalsArgs(c, o, args[1..], st, r.tr);
      }
      assert EraseAll(args)[1..] == EraseAll(args[1..]);
    }
  }

  /** Same type and same code with the parentheses that printing needs. */
  lemma MinimalSame(c: Scope, e: Expr, tag: nat)
    ensures CheckExpr(c, Minimal(e)) == CheckExpr(c, e)
    ensures ExprCode(c, Minimal(e), tag) == ExprCode(c, e, tag)
  {
    hide Minimal, Erase, CheckExpr, ExprCode;
    MinimalErases(e);
    EraseChecks(c, e);
    EraseChecks(c, Minimal(e));
    EraseCodes(c, e, tag);
    EraseCodes(c, Minimal(e), tag);
  }

  lemma MinimalEvals(c: Scope, o: Env, e: Expr, st: Globals, tr: Trace)
    ensures Eval(c, o, Minimal(e), st, tr) == Eval(c, o, e, st, tr)
  {
    hide Minimal, Erase, Eval;
    MinimalErases(e);
    EraseEvals(c, o, e, st, tr);
    EraseEvals(c, o, Minimal(e), st, tr);
  }

  lemma MinimalArgsSame(c: Scope, args: seq<Expr>, ts: seq<Ty>, tag: nat)
    ensures CheckArgs(c, MinimalAll(args), ts) == CheckArgs(c, args, ts)
    ensures ArgsCode(c, MinimalAll(args), tag, 0, 0) == ArgsCode(c, args, tag, 0, 0)
  {
    hide CheckArgs, ArgsCode;
    var m := MinimalAll(args);
    forall i | 0 <= i < |args| ensures EraseAll(m)[i] == EraseAll(args)[i] {
      MinimalErases(args[i]);
    }
    assert EraseAll(m) == EraseAll(args);
    EraseChecksArgs(c, m, ts);
    EraseChecksArgs(c, args, ts);
    EraseArgs(c, m, tag, 0, 0);
    EraseArgs(c, args, tag, 0, 0);
  }

  /** Printing a tree with its necessary parentheses and parsing it gives back the tree. */
  lemma TreeRoundTrip(e: Expr, rest: seq<Token>)
    requires Lexical(e) && Stops(Peek(rest), 4)
    ensures ParseExpr(Print(Minimal(e)) + rest) == Got(Minimal(e), rest)
    ensures Erase(ParseExpr(Print(Minimal(e)) + rest).v) == Erase(e)
  {
    hide Minimal, Erase, Print, ParseExpr, Fits, Lexical;
    MinimalFits(e);
    ExprComplete(Minimal(e), rest);
    MinimalErases(e);
  }

  // ---------- statements ----------

  /** An IF whose ELSE would go to the wrong IF stands in a block of its own. */
  function Brace(m: Stmt): Stmt {
    if OpenIf(m) then Block([m], false) else m
  }

  function MinimalStmt(s: Stmt): Stmt
    decreases s, 1
  {
    match s
    case Assignment(x, k, e) => Assignment(x, k, Minimal(e))
    case IfElse(e, t, f) => IfElse(Minimal(e), Brace(MinimalStmt(t)), MinimalStmt(f))
    case IfOnly(e, t) => IfOnly(Minimal(e), MinimalStmt(t))
    case Loop(e, b) => Loop(Minimal(e), MinimalStmt(b))
    case ForTo(x, k, from, to, b) => ForTo(x, k, Minimal(from), Minimal(to), MinimalStmt(b))
    case Block(ss, trailing) => Block(MinimalStmts(ss), trailing && ss != [])
    case Show(e) => Show(Minimal(e))
    case CallStmt(f, args) => CallStmt(f, MinimalAll(args))
  }

  function MinimalStmts(ss: seq<Stmt>): (r: seq<Stmt>)
    ensures |r| == |ss|
    ensures forall i :: 0 <= i < |ss| ==> r[i] == MinimalStmt(ss[i])
    decreases ss, 0
  {
    if ss == [] then [] else [MinimalStmt(ss[0])] + MinimalStmts(ss[1..])
  }

  /** Lexically sound trees are exactly those that some text parses to, up to parentheses. */
  lemma LexicalExactly(e: Expr)
    ensures Lexical(e) <==> (exists e' :: Fits(e', 4) && Erase(e') == Erase(e))
  {
    hide Fits, Lexical, Erase, Minimal;
    if Lexical(e) {
      MinimalFits(e);
      MinimalErases(e);
      assert Fits(Minimal(e), 4) && Erase(Minimal(e)) == Erase(e);
    }
    if e' :| Fits(e', 4) && Erase(e') == Erase(e) {
      FitsLexical(e', 4);
      EraseLexical(e');
      EraseLexical(e);
    }
  }

  predicate LexicalStmt(s: Stmt)
    decreases s
  {
    match s
    case Assignment(x, _, e) => x.Id? && Lexical(e)
    case IfElse(e, t, f) => Lexical(e) && LexicalStmt(t) && LexicalStmt(f)
    case IfOnly(e, t) => Lexical(e) && LexicalStmt(t)
    case Loop(e, b) => Lexical(e) && LexicalStmt(b)
    case ForTo(x, _, from, to, b) => x.Id? && Lexical(from) && Lexical(to) && LexicalStmt(b)
    case Block(ss, _) => forall i :: 0 <= i < |ss| ==> LexicalStmt(ss[i])
    case Show(e) => Lexical(e)
    case CallStmt(f, args) => f.Id? && forall i :: 0 <= i < |args| ==> Lexical(args[i])
  }

  /** Every statement of the grammar is lexically sound. */
  lemma {:induction false} FitsLexicalStmt(s: Stmt)
    requires FitsStmt(s)
    ensures LexicalStmt(s)
    decreases s
  {
    hide Fits, Lexical;
    match s
    case Assignment(_, _, e) => FitsLexical(e, 4);
    case IfElse(e, t, f) => FitsLexical(e, 4); FitsLexicalStmt(t); FitsLexicalStmt(f);
    case IfOnly(e, t) => FitsLexical(e, 4); FitsLexicalStmt(t);
    case Loop(e, b) => FitsLexical(e, 4); FitsLexicalStmt(b);
    case ForTo(_, _, from, to, b) => FitsLexical(from, 4); FitsLexical(to, 4); FitsLexicalStmt(b);
    case Block(ss, _) =>
      forall i | 0 <= i < |ss| ensures LexicalStmt(ss[i]) {
        FitsLexicalStmt(ss[i]);
      }
    case Show(e) => FitsLexical(e, 4);
    case CallStmt(_, args) =>
      forall i | 0 <= i < |args| ensures Lexical(args[i]) {
        FitsLexical(args[i], 4);
      }
  }

  lemma {:induction false} MinimalStmtFits(s: Stmt)
    requires LexicalStmt(s)
    ensures FitsStmt(MinimalStmt(s))
    decreases s
  {
    hide Minimal, Fits, Lexical;
    match s
    case Assignment(_, _, e) => MinimalFits(e);
    case IfElse(e, t, f) =>
      MinimalFits(e);
      MinimalStmtFits(t);
      MinimalStmtFits(f);
      assert FitsStmt(Brace(MinimalStmt(t)));
    case IfOnly(e, t) =>
      MinimalFits(e);
      MinimalStmtFits(t);
    case Loop(e, b) =>
      MinimalFits(e);
      MinimalStmtFits(b);
    case ForTo(_, _, from, to, b) =>
      MinimalFits(from);
      MinimalFits(to);
      MinimalStmtFits(b);
    case Block(ss, _) =>
      forall i | 0 <= i < |ss| ensures FitsStmt(MinimalStmt(ss[i])) {
        MinimalStmtFits(ss[i]);
      }
    case Show(e) => MinimalFits(e);
    case CallStmt(_, args) =>
      forall i | 0 <= i < |args| ensures Fits(Minimal(args[i]), 4) {
        MinimalFits(args[i]);
      }
  }

  lemma BraceSame(c: Scope, m: Stmt, tag: nat)
    ensures CheckStmt(c, Brace(m)) == CheckStmt(c, m) && StmtCode(c, Brace(m), tag) == StmtCode(c, m, tag)
  {
    hide OpenIf;
    if OpenIf(m) {
      var f := StmtCode(c, m, tag);
      assert Brace(m) == Block([m], false) && [m][1..] == [];
      assert CheckStmts(c, []) && CheckStmts(c, [m]) == CheckStmt(c, m);
      assert StmtsCode(c, [], f.tag) == Frag([], f.tag) && f.code + [] == f.code;
      assert StmtsCode(c, [m], tag) == f;
    }
  }

  lemma {:induction false} MinimalStmtSame(c: Scope, s: Stmt, tag: nat)
    ensures CheckStmt(c, MinimalStmt(s)) == CheckStmt(c, s)
    ensures StmtCode(c, MinimalStmt(s), tag) == StmtCode(c, s, tag)
    decreases s, 1
  {
    hide Minimal, CheckExpr, ExprCode, CheckArgs, ArgsCode, Callable, Brace, Branch, DisplayCode, StoreCode;
    match s
    case Assignment(_, _, e) => MinimalSame(c, e, tag);
    case IfElse(e, t, f) =>
      MinimalSame(c, e, tag + 1);
      var fe := ExprCode(c, e, tag + 1);
      MinimalStmtSame(c, t, fe.tag);
      BraceSame(c, MinimalStmt(t), fe.tag);
      MinimalStmtSame(c, f, StmtCode(c, t, fe.tag).tag);
    case IfOnly(e, t) =>
      MinimalSame(c, e, tag + 1);
      MinimalStmtSame(c, t, ExprCode(c, e, tag + 1).tag);
    case Loop(e, b) =>
      MinimalSame(c, e, tag + 1);
      MinimalStmtSame(c, b, ExprCode(c, e, tag + 1).tag);
    case ForTo(_, _, from, to, b) =>
      MinimalSame(c, from, tag);
      var t := ExprCode(c, from, tag).tag + 1;
      MinimalSame(c, to, t);
      MinimalStmtSame(c, b, ExprCode(c, to, t).tag);
    case Block(ss, _) => MinimalStmtsSame(c, ss, tag);
    case Show(e) => MinimalSame(c, e, tag);
    case CallStmt(f, args) =>
      MinimalArgsSame(c, args, if f in c.funcs then c.funcs[f].params else [], tag);
  }

  lemma {:induction false} MinimalStmtsSame(c: Scope, ss: seq<Stmt>, tag: nat)
    ensures CheckStmts(c, MinimalStmts(ss)) == CheckStmts(c, ss)
    ensures StmtsCode(c, MinimalStmts(ss), tag) == StmtsCode(c, ss, tag)
    decreases ss, 0
  {
    hide MinimalStmt, CheckStmt, StmtCode;
    if ss != [] {
      MinimalStmtSame(c, ss[0], tag);
      MinimalStmtsSame(c, ss[1..], StmtCode(c, ss[0], tag).tag);
      assert MinimalStmts(ss)[1..] == MinimalStmts(ss[1..]);
    }
  }

  /** Every lexically sound block has a text: the parser reads it back up to parentheses, and the
      program so written is compiled to exactly the code of the block. */
  lemma EveryTreeHasAText(c: Scope, body: Stmt, rest: seq<Token>)
    requires LexicalStmt(body) && Ends(Peek(rest), MinimalStmt(body))
    ensures ParseStmt(PrintStmt(MinimalStmt(body)) + rest) == Got(MinimalStmt(body), rest)
    ensures CheckStmt(c, MinimalStmt(body)) == CheckStmt(c, body)
    ensures MainCode(c, MinimalStmt(body)) == MainCode(c, body)
  {
    hide MinimalStmt, LexicalStmt, CheckStmt, StmtCode, PrintStmt, ParseStmt, FitsStmt;
    MinimalStmtFits(body);
    StmtComplete(MinimalStmt(body), rest);
    MinimalStmtSame(c, body, 0);
  }
}
