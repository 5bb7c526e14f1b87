/** Which expressions, statements and calls are accepted, with every operator and every type written
    out. */
module TypeRules {
  import opened Words
  import opened Syntax
  import opened Typing
  import FrontEnd

  /** `+`, `-`, `*`, `/` and `%` take two INTEGERs or two DOUBLEs and give the same; `||` and `&&` take two
      BOOLEANs and give one. */
  lemma BinaryAccepted(c: Scope, op: BinOp, l: Expr, r: Expr, t: Ty)
    ensures CheckExpr(c, Bin(op, l, r)) == Some(t)
       <==> (&& CheckExpr(c, l) == Some(t) && CheckExpr(c, r) == Some(t)
             && (|| ((op == OpAdd || op == OpSub || op == OpMul || op == OpDiv || op == OpMod)
                     && (t == TInt || t == TDouble))
                 || ((op == OpOr || op == OpAnd) && t == TBool)))
  {}

  /** Every comparison takes two INTEGERs or two DOUBLEs and gives a BOOLEAN. */
  lemma ComparisonAccepted(c: Scope, op: RelOp, l: Expr, r: Expr, t: Ty)
    ensures CheckExpr(c, Rel(op, l, r)) == Some(t)
       <==> (&& t == TBool
             && (|| (CheckExpr(c, l) == Some(TInt) && CheckExpr(c, r) == Some(TInt))
                 || (CheckExpr(c, l) == Some(TDouble) && CheckExpr(c, r) == Some(TDouble))))
  {}

  /** The conversions that exist. */
  lemma ConversionAccepted(c: Scope, e: Expr, te: TypeExpr, t: Ty)
    ensures CheckExpr(c, Conv(e, te)) == Some(t)
       <==> (&& Resolve(c.aliases, te) == Some(t) && CheckExpr(c, e).Some?
             && (CheckExpr(c, e).value, t) in {
                  (TInt, TInt), (TDouble, TDouble), (TBool, TBool), (TChar, TChar), (TInt, TDouble), (TDouble, TInt),
                  (TInt, TChar), (TDouble, TChar), (TBool, TChar)})
  {}

  lemma LiteralsAccepted(c: Scope, text: string, w: Word)
    ensures CheckExpr(c, Lit(IntLit(text, w))) == Some(TInt)
    ensures CheckExpr(c, Lit(FloatLit(text, w))) == Some(TDouble)
    ensures CheckExpr(c, Lit(CharLit(w))) == Some(TChar)
  {}

  lemma PointersAccepted(c: Scope, e: Expr, x: Name, t: Ty)
    ensures CheckExpr(c, Var(x)) == Some(t) <==> x in c.vars && c.vars[x] == t
    ensures CheckExpr(c, Ref(x)) == Some(t) <==> x in c.vars && t == TPtr(c.vars[x])
    ensures CheckExpr(c, Deref(e)) == Some(t) <==> CheckExpr(c, e) == Some(TPtr(t))
  {}

  lemma UnaryAccepted(c: Scope, e: Expr, t: Ty)
    ensures CheckExpr(c, Negate(e)) == Some(t) <==> t == TBool && CheckExpr(c, e) == Some(TBool)
    ensures CheckExpr(c, Paren(e)) == CheckExpr(c, e)
  {}

  /** The types that are written with a name, with carets, and with an alias. */
  lemma TypesWritten(aliases: map<Name, Ty>, x: Name, te: TypeExpr, t: Ty)
    ensures Resolve(aliases, Named(BInteger)) == Some(TInt)
    ensures Resolve(aliases, Named(BDouble)) == Some(TDouble)
    ensures Resolve(aliases, Named(BBoolean)) == Some(TBool)
    ensures Resolve(aliases, Named(BChar)) == Some(TChar)
    ensures Resolve(aliases, PointerTo(te)) == Some(t) <==> t.TPtr? && Resolve(aliases, te) == Some(t.target)
    ensures Resolve(aliases, Alias(x)) == Some(t) <==> x in aliases && aliases[x] == t
  {}

  // ---------- calls ----------

  /** How many of the first n parameters are passed in regular registers, and how many in %xmm. */
  ghost function RegularBefore(ts: seq<Ty>, n: nat): set<nat>
    requires n <= |ts|
  {
    set i: nat | i < n && (ts[i] == TInt || ts[i] == TBool || ts[i] == TChar || ts[i].TPtr?)
  }

  ghost function DoublesBefore(ts: seq<Ty>, n: nat): set<nat>
    requires n <= |ts|
  {
    set i: nat | i < n && ts[i] == TDouble
  }

  lemma NothingCounted(ts: seq<Ty>)
    ensures RegularCount(ts[..0]) == |RegularBefore(ts, 0)| && FloatCount(ts[..0]) == |DoublesBefore(ts, 0)|
  {
    assert RegularBefore(ts, 0) == {} && DoublesBefore(ts, 0) == {};
  }

  lemma NextCounted(ts: seq<Ty>, n: nat)
    requires n < |ts|
    ensures |RegularBefore(ts, n + 1)| == |RegularBefore(ts, n)| + (if ts[n].TDouble? then 0 else 1)
    ensures |DoublesBefore(ts, n + 1)| == |DoublesBefore(ts, n)| + (if ts[n].TDouble? then 1 else 0)
  {
    var regular, doubles := RegularBefore(ts, n), DoublesBefore(ts, n);
    if ts[n].TDouble? {
      assert DoublesBefore(ts, n + 1) == doubles + {n};
      assert RegularBefore(ts, n + 1) == regular;
    } else {
      assert RegularBefore(ts, n + 1) == regular + {n};
      assert DoublesBefore(ts, n + 1) == doubles;
    }
  }

  lemma {:induction false} CountsAre(ts: seq<Ty>, n: nat)
    requires n <= |ts|
    ensures RegularCount(ts[..n]) == |RegularBefore(ts, n)| && FloatCount(ts[..n]) == |DoublesBefore(ts, n)|
  {
    hide RegularCount, FloatCount, RegularBefore, DoublesBefore;
    if n == 0 {
      NothingCounted(ts);
    } else {
      CountsAre(ts, n - 1);
      NextCounted(ts, n - 1);
      FrontEnd.CountsNext(ts, n - 1);
    }
  }

  lemma {:induction false} ArgumentsMatch(c: Scope, args: seq<Expr>, ts: seq<Ty>)
    ensures CheckArgs(c, args, ts)
       <==> |args| == |ts| && forall i :: 0 <= i < |args| ==> CheckExpr(c, args[i]) == Some(ts[i])
    decreases |args|
  {
    hide CheckExpr;
    if args != [] && ts != [] {
      ArgumentsMatch(c, args[1..], ts[1..]);
      assert forall i :: 0 < i < |args| ==> args[i] == args[1..][i - 1];
      assert forall i :: 0 < i < |ts| ==> ts[i] == ts[1..][i - 1];
    }
  }

  /** The calls that are accepted: the function is declared with parameters that are no pointers, at most
      six of them regular and at most eight DOUBLE, and with a result of VOID, INTEGER, DOUBLE or CHAR;
      there is one argument for each parameter, of exactly its type. */
  ghost predicate GoodCall(c: Scope, f: Name, args: seq<Expr>) {
    && f in c.funcs
    && var ts, ret := c.funcs[f].params, c.funcs[f].ret;
    && (ret == None || ret == Some(TInt) || ret == Some(TDouble) || ret == Some(TChar))
    && (forall i :: 0 <= i < |ts| ==> ts[i] == TInt || ts[i] == TDouble || ts[i] == TBool || ts[i] == TChar)
    && |RegularBefore(ts, |ts|)| <= 6 && |DoublesBefore(ts, |ts|)| <= 8
    && |args| == |ts| && forall i :: 0 <= i < |args| ==> CheckExpr(c, args[i]) == Some(ts[i])
  }

  lemma CallAccepted(c: Scope, f: Name, args: seq<Expr>, t: Ty)
    ensures CheckExpr(c, Call(f, args)) == Some(t) <==> GoodCall(c, f, args) && c.funcs[f].ret == Some(t)
    ensures CheckStmt(c, CallStmt(f, args)) <==> GoodCall(c, f, args)
  {
    if f in c.funcs {
      var ts := c.funcs[f].params;
      assert ts[..|ts|] == ts;
      CountsAre(ts, |ts|);
      ArgumentsMatch(c, args, ts);
    }
  }

  // ---------- statements ----------

  /** A pointer of the given depth. */
  function PointerOf(k: nat, t: Ty): Ty {
    if k == 0 then t else TPtr(PointerOf(k - 1, t))
  }

  lemma {:induction false} StripsTo(t: Ty, k: nat, u: Ty)
    ensures Strip(t, k) == Some(u) <==> t == PointerOf(k, u)
    decreases k
  {
    if k > 0 && t.TPtr? {
      StripsTo(t.target, k - 1, u);
    }
  }

  /** An assignment needs a variable that is exactly as many pointers away from the value as it has carets. */
  lemma AssignmentAccepted(c: Scope, x: Name, k: nat, e: Expr)
    ensures CheckStmt(c, Assignment(x, k, e))
       <==> x in c.vars && CheckExpr(c, e).Some? && c.vars[x] == PointerOf(k, CheckExpr(c, e).value)
  {
    hide CheckExpr;
    if x in c.vars && CheckExpr(c, e).Some? {
      StripsTo(c.vars[x], k, CheckExpr(c, e).value);
    }
  }

  /** Conditions are BOOLEAN, the variable and the limits of a FOR are INTEGER and have no carets, and
      everything but a pointer can be displayed. */
  lemma StatementsAccepted(c: Scope, e: Expr, e': Expr, a: Stmt, b: Stmt, x: Name, k: nat, ss: seq<Stmt>,
                           trailing: bool)
    ensures CheckStmt(c, IfElse(e, a, b)) <==> CheckExpr(c, e) == Some(TBool) && CheckStmt(c, a) && CheckStmt(c, b)
    ensures CheckStmt(c, IfOnly(e, a)) <==> CheckExpr(c, e) == Some(TBool) && CheckStmt(c, a)
    ensures CheckStmt(c, Loop(e, a)) <==> CheckExpr(c, e) == Some(TBool) && CheckStmt(c, a)
    ensures CheckStmt(c, ForTo(x, k, e, e', a))
       <==> (&& k == 0 && x in c.vars && c.vars[x] == TInt && CheckExpr(c, e) == Some(TInt)
             && CheckExpr(c, e') == Some(TInt) && CheckStmt(c, a))
    ensures CheckStmt(c, Show(e))
       <==> (|| CheckExpr(c, e) == Some(TInt) || CheckExpr(c, e) == Some(TDouble)
             || CheckExpr(c, e) == Some(TBool) || CheckExpr(c, e) == Some(TChar))
    ensures CheckStmt(c, Block(ss, trailing)) <==> forall i :: 0 <= i < |ss| ==> CheckStmt(c, ss[i])
  {
    hide CheckExpr;
    AllAccepted(c, ss);
  }

  lemma {:induction false} AllAccepted(c: Scope, ss: seq<Stmt>)
    ensures CheckStmts(c, ss) <==> forall i :: 0 <= i < |ss| ==> CheckStmt(c, ss[i])
    decreases |ss|
  {
    hide CheckStmt;
    if ss != [] {
      AllAccepted(c, ss[1..]);
      assert forall i :: 0 < i < |ss| ==> ss[i] == ss[1..][i - 1];
    }
  }
}
