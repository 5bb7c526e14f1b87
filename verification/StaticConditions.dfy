/** The conditions on the text of a program that the theorems about FOR and about the sound fragment ask
    for, as statements about every store and every expression that occurs in it. */
module StaticConditions {
  import opened Words
  import opened Syntax
  import opened Typing
  import opened Semantics
  import opened ForCounting
  import opened SoundFragment
  import opened TypeRules

  /** Every store of a statement: its variable and its number of carets. A FOR also increments. */
  ghost function Stores(s: Stmt): set<(Name, nat)>
    decreases s
  {
    match s
    case Assignment(x, k, _) => {(x, k)}
    case IfElse(_, t, f) => Stores(t) + Stores(f)
    case IfOnly(_, t) => Stores(t)
    case Loop(_, b) => Stores(b)
    case ForTo(x, k, _, _, b) => {(x, k), (x, 0)} + Stores(b)
    case Block(ss, _) => set i, w | 0 <= i < |ss| && w in Stores(ss[i]) :: w
    case _ => {}
  }

  /** The store leaves the variables alone: it names none of them, and no pointer it goes through can lead to
      one of them, because its type is that of no such pointer. */
  ghost predicate Misses(c: Scope, x: Name, k: nat, ys: set<Name>) {
    && (k == 0 ==> x !in ys)
    && (k > 0 ==> x in c.vars && forall y :: y in ys ==> y in c.vars && c.vars[x] != PointerOf(k, c.vars[y]))
  }

  lemma StoreMisses(c: Scope, x: Name, k: nat, ys: set<Name>)
    ensures SparesStore(c, x, k, ys) <==> Misses(c, x, k, ys)
  {
    hide Strip, PointerOf;
    if x in c.vars {
      forall y | y in ys && y in c.vars
        ensures Strip(c.vars[x], k) == Some(c.vars[y]) <==> c.vars[x] == PointerOf(k, c.vars[y])
      {
        StripsTo(c.vars[x], k, c.vars[y]);
      }
    }
  }

  lemma NodeSpares(c: Scope, s: Stmt, ys: set<Name>)
    ensures s.Assignment? ==>
              Stores(s) == {(s.x, s.carets)} && (Spares(c, s, ys) <==> Misses(c, s.x, s.carets, ys))
    ensures s.IfElse? ==> (Spares(c, s, ys) <==> Spares(c, s.thn, ys) && Spares(c, s.els, ys))
    ensures s.IfOnly? ==> (Spares(c, s, ys) <==> Spares(c, s.thn, ys))
    ensures s.Loop? ==> (Spares(c, s, ys) <==> Spares(c, s.body, ys))
    ensures s.ForTo? ==>
              (Spares(c, s, ys) <==> Misses(c, s.x, s.carets, ys) && Misses(c, s.x, 0, ys) && Spares(c, s.body, ys))
    ensures s.Show? || s.CallStmt? ==> Stores(s) == {} && Spares(c, s, ys)
  {
    hide SparesStore, Misses;
    if s.Assignment? || s.ForTo? {
      StoreMisses(c, s.x, s.carets, ys);
      Unnamed(c, s.x, ys);
    }
  }

  lemma {:induction false} SparesExactly(c: Scope, s: Stmt, ys: set<Name>)
    ensures Spares(c, s, ys) <==> (forall w :: w in Stores(s) ==> Misses(c, w.0, w.1, ys))
    decreases s
  {
    hide Spares, Misses;
    NodeSpares(c, s, ys);
    match s
    case Assignment(x, k, _) => assert (x, k) in Stores(s);
    case IfElse(_, t, f) => SparesExactly(c, t, ys); SparesExactly(c, f, ys);
    case IfOnly(_, t) => SparesExactly(c, t, ys);
    case Loop(_, b) => SparesExactly(c, b, ys);
    case ForTo(x, k, _, _, b) =>
      SparesExactly(c, b, ys);
      assert (x, k) in Stores(s) && (x, 0) in Stores(s);
    case Block(ss, _) => AllSpare(c, ss, ys, s);
    case _ =>
  }

  lemma Unnamed(c: Scope, x: Name, ys: set<Name>)
    ensures Misses(c, x, 0, ys) <==> x !in ys
  {}

  lemma {:induction false} AllSpare(c: Scope, ss: seq<Stmt>, ys: set<Name>, s: Stmt)
    requires s.Block? && s.stmts == ss
    ensures Spares(c, s, ys) <==> (forall w :: w in Stores(s) ==> Misses(c, w.0, w.1, ys))
    decreases ss
  {
    hide Misses;
    forall i | 0 <= i < |ss|
      ensures Spares(c, ss[i], ys) <==> (forall w :: w in Stores(ss[i]) ==> Misses(c, w.0, w.1, ys))
    {
      SparesExactly(c, ss[i], ys);
    }
    if forall w :: w in Stores(s) ==> Misses(c, w.0, w.1, ys) {
      forall i | 0 <= i < |ss| ensures Spares(c, ss[i], ys) {
        assert forall w :: w in Stores(ss[i]) ==> w in Stores(s);
      }
    }
  }

  // ---------- expressions ----------

  /** An expression and everything inside it, the arguments of calls included. */
  ghost function Parts(e: Expr): set<Expr>
    decreases e
  {
    match e
    case Deref(a) => {e} + Parts(a)
    case Negate(a) => {e} + Parts(a)
    case Paren(a) => {e} + Parts(a)
    case Conv(a, _) => {e} + Parts(a)
    case Bin(_, l, r) => {e} + Parts(l) + Parts(r)
    case Rel(_, l, r) => {e} + Parts(l) + Parts(r)
    case Call(_, args) => {e} + (set i, p | 0 <= i < |args| && p in Parts(args[i]) :: p)
    case _ => {e}
  }

  /** What no part of the bound of a counted FOR may be: a variable that is not given, a dereference, or
      anything that calls out. */
  ghost predicate Depends(c: Scope, p: Expr, ys: set<Name>) {
    || (p.Var? && p.x !in ys) || p.Deref? || p.Call?
    || (p.Bin? && p.op == OpMod && TyOf(c, p.l) == TDouble)
  }

  lemma NodeDepends(c: Scope, e: Expr, ys: set<Name>)
    ensures e.Lit? || e.Var? || e.Ref? ==> Parts(e) == {e} && (ReadsOnly(c, e, ys) <==> !Depends(c, e, ys))
    ensures e.Deref? || e.Call? ==> Depends(c, e, ys) && !ReadsOnly(c, e, ys)
    ensures e.Negate? || e.Paren? || e.Conv? ==> !Depends(c, e, ys) && ReadsOnly(c, e, ys) == ReadsOnly(c, e.e, ys)
    ensures e.Bin? || e.Rel? ==>
              (ReadsOnly(c, e, ys) <==> !Depends(c, e, ys) && ReadsOnly(c, e.l, ys) && ReadsOnly(c, e.r, ys))
  {
    hide TyOf;
    if e.Bin? {
      assert Depends(c, e, ys) <==> e.op == OpMod && TyOf(c, e.l).TDouble?;
    }
  }

  lemma {:induction false} ReadsExactly(c: Scope, e: Expr, ys: set<Name>)
    ensures ReadsOnly(c, e, ys) <==> (forall p :: p in Parts(e) ==> !Depends(c, p, ys))
    decreases e
  {
    hide ReadsOnly, Depends;
    NodeDepends(c, e, ys);
    assert e in Parts(e);
    match e
    case Negate(a) => ReadsExactly(c, a, ys);
    case Paren(a) => ReadsExactly(c, a, ys);
    case Conv(a, _) => ReadsExactly(c, a, ys);
    case Bin(_, l, r) => ReadsExactly(c, l, ys); ReadsExactly(c, r, ys);
    case Rel(_, l, r) => ReadsExactly(c, l, ys); ReadsExactly(c, r, ys);
    case _ =>
  }

  /** What no part of an expression of the fragment may be: a literal from 2^31 up to 2^32, `&&`, INTEGER `%`, a
      conversion that is not to the same type, from INTEGER to CHAR or of a small literal to DOUBLE, or a call
      whose arguments may overwrite each other's registers. */
  ghost predicate Departs(c: Scope, p: Expr) {
    || (p.Lit? && !(IsLiteral(p.t) && (LiteralWord(p.t) < 0x8000_0000 || LiteralWord(p.t) >= 0x1_0000_0000)))
    || (p.Bin? && (p.op == OpAnd || (p.op == OpMod && TyOf(c, p.l) == TInt)))
    || (p.Conv? &&
        var from, to := TyOf(c, p.e), Resolve(c.aliases, p.to);
        !(to == Some(from) || (from == TInt && to == Some(TChar)) || (to == Some(TDouble) && SmallLimit(p.e))))
    || (p.Call? && !KeepsArgs(c, p.args, 0, 0))
  }

  lemma NodeDeparts(c: Scope, e: Expr)
    ensures e.Lit? || e.Var? || e.Ref? ==> Parts(e) == {e} && (InFragment(c, e) <==> !Departs(c, e))
    ensures e.Deref? || e.Negate? || e.Paren? || e.Conv? ==>
              (InFragment(c, e) <==> !Departs(c, e) && InFragment(c, e.e))
    ensures e.Bin? || e.Rel? ==> (InFragment(c, e) <==> !Departs(c, e) && InFragment(c, e.l) && InFragment(c, e.r))
  {
    hide TyOf, Resolve, SmallLimit, KeepsArgs, LiteralWord;
    match e
    case Conv(a, te) =>
      var to := Resolve(c.aliases, te);
      assert !Departs(c, e) <==>
        to.Some? && (FaithfulConv(TyOf(c, a), to.value) || (to.value.TDouble? && SmallLimit(a)));
    case Bin(op, l, _) =>
      assert !Departs(c, e) <==> op != OpAnd && !(op == OpMod && TyOf(c, l).TInt?);
    case _ =>
  }

  lemma {:induction false} FragmentExactly(c: Scope, e: Expr)
    ensures InFragment(c, e) <==> (forall p :: p in Parts(e) ==> !Departs(c, p))
    decreases e, 1
  {
    hide InFragment, Departs;
    NodeDeparts(c, e);
    assert e in Parts(e);
    match e
    case Deref(a) => FragmentExactly(c, a);
    case Negate(a) => FragmentExactly(c, a);
    case Paren(a) => FragmentExactly(c, a);
    case Conv(a, _) => FragmentExactly(c, a);
    case Bin(_, l, r) => FragmentExactly(c, l); FragmentExactly(c, r);
    case Rel(_, l, r) => FragmentExactly(c, l); FragmentExactly(c, r);
    case Call(_, _) => CallExactly(c, e);
    case _ =>
  }

  lemma {:induction false} CallExactly(c: Scope, e: Expr)
    requires e.Call?
    ensures InFragment(c, e) <==> (forall p :: p in Parts(e) ==> !Departs(c, p))
    decreases e, 0
  {
    hide KeepsArgs, TyOf, Resolve, SmallLimit, LiteralWord;
    assert e in Parts(e) && (Departs(c, e) <==> !KeepsArgs(c, e.args, 0, 0));
    forall i | 0 <= i < |e.args|
      ensures InFragment(c, e.args[i]) <==> (forall p :: p in Parts(e.args[i]) ==> !Departs(c, p))
    {
      FragmentExactly(c, e.args[i]);
    }
    if InFragment(c, e) {
      forall p | p in Parts(e) ensures !Departs(c, p) {
        if p != e {
          var i :| 0 <= i < |e.args| && p in Parts(e.args[i]);
        }
      }
    }
    if forall p :: p in Parts(e) ==> !Departs(c, p) {
      forall i | 0 <= i < |e.args| ensures InFragment(c, e.args[i]) {
        assert forall p :: p in Parts(e.args[i]) ==> p in Parts(e);
      }
    }
  }

  /** A statement and every statement inside it. */
  ghost function Inner(s: Stmt): set<Stmt>
    decreases s
  {
    match s
    case IfElse(_, t, f) => {s} + Inner(t) + Inner(f)
    case IfOnly(_, t) => {s} + Inner(t)
    case Loop(_, b) => {s} + Inner(b)
    case ForTo(_, _, _, _, b) => {s} + Inner(b)
    case Block(ss, _) => {s} + (set i, t | 0 <= i < |ss| && t in Inner(ss[i]) :: t)
    case _ => {s}
  }

  /** What is asked of each statement of the fragment by itself: its expressions are in the fragment, the
      limits of a FOR are small literals, the last value included, and its body spares the variable. */
  ghost predicate Admitted(c: Scope, t: Stmt) {
    && (t.Assignment? ==> InFragment(c, t.e))
    && (t.Show? ==> InFragment(c, t.e))
    && (t.IfElse? || t.IfOnly? || t.Loop? ==> InFragment(c, t.c))
    && (t.CallStmt? ==> KeepsArgs(c, t.args, 0, 0) && forall i :: 0 <= i < |t.args| ==> InFragment(c, t.args[i]))
    && (t.ForTo? ==>
          && t.carets == 0 && SmallLimit(t.from) && SmallLimit(t.to)
          && Limit(t.to) != Some(0x7FFF_FFFF_FFFF_FFFF) && Spares(c, t.body, {t.x}))
  }

  lemma {:induction false} StmtFragmentExactly(c: Scope, s: Stmt)
    ensures InFragmentStmt(c, s) <==> (forall t :: t in Inner(s) ==> Admitted(c, t))
    decreases s, 1
  {
    hide InFragment, InFragmentStmt, Admitted;
    NodeAdmitted(c, s);
    assert s in Inner(s);
    match s
    case IfElse(_, t, f) => StmtFragmentExactly(c, t); StmtFragmentExactly(c, f);
    case IfOnly(_, t) => StmtFragmentExactly(c, t);
    case Loop(_, b) => StmtFragmentExactly(c, b);
    case ForTo(_, _, _, _, b) => StmtFragmentExactly(c, b);
    case Block(_, _) => BlockExactly(c, s);
    case _ =>
      LeafAdmitted(c, s);
      assert Inner(s) == {s};
  }

  lemma LeafAdmitted(c: Scope, s: Stmt)
    requires s.Assignment? || s.Show? || s.CallStmt?
    ensures InFragmentStmt(c, s) <==> Admitted(c, s)
  {
    hide InFragment, KeepsArgs;
  }

  lemma NodeAdmitted(c: Scope, s: Stmt)
    ensures s.ForTo? ==> (InFragmentStmt(c, s) <==> Admitted(c, s) && InFragmentStmt(c, s.body))
    ensures s.Loop? ==> (InFragmentStmt(c, s) <==> Admitted(c, s) && InFragmentStmt(c, s.body))
    ensures s.IfOnly? ==> (InFragmentStmt(c, s) <==> Admitted(c, s) && InFragmentStmt(c, s.thn))
    ensures s.IfElse? ==>
              (InFragmentStmt(c, s) <==> Admitted(c, s) && InFragmentStmt(c, s.thn) && InFragmentStmt(c, s.els))
  {
    hide InFragment, KeepsArgs, Spares;
  }

  lemma {:induction false} BlockExactly(c: Scope, s: Stmt)
    requires s.Block?
    ensures InFragmentStmt(c, s) <==> (forall t :: t in Inner(s) ==> Admitted(c, t))
    decreases s, 0
  {
    hide InFragment, KeepsArgs, SmallLimit, Limit, Spares;
    assert s in Inner(s) && Admitted(c, s);
    forall i | 0 <= i < |s.stmts|
      ensures InFragmentStmt(c, s.stmts[i]) <==> (forall t :: t in Inner(s.stmts[i]) ==> Admitted(c, t))
    {
      StmtFragmentExactly(c, s.stmts[i]);
    }
    if InFragmentStmt(c, s) {
      forall t | t in Inner(s) ensures Admitted(c, t) {
        if t != s {
          var i :| 0 <= i < |s.stmts| && t in Inner(s.stmts[i]);
        }
      }
    }
    if forall t :: t in Inner(s) ==> Admitted(c, t) {
      forall i | 0 <= i < |s.stmts| ensures InFragmentStmt(c, s.stmts[i]) {
        assert forall t :: t in Inner(s.stmts[i]) ==> t in Inner(s);
      }
    }
  }

  /** A literal, in parentheses or not, that is below 2^31 or from 2^32 up to 2^63. */
  lemma {:induction false} SmallLimits(e: Expr, text: string, w: Word)
    ensures SmallLimit(Lit(IntLit(text, w)))
       <==> w < 0x8000_0000 || 0x1_0000_0000 <= w < 0x8000_0000_0000_0000
    ensures SmallLimit(Paren(e)) <==> SmallLimit(e)
  {}
}
