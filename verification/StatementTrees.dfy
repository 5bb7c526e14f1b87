/** How each statement parses, checks and compiles from its parts, and the loops over carets and
    over the items of a block. */
module StatementTrees {
  import opened Syntax
  import opened Typing
  import opened Machine
  import opened Emission
  import opened Grammar

  // ---------- assignments ----------

  /** One more dereference of a type. */
  lemma {:induction false} StripStep(t: Ty, k: nat)
    ensures Strip(t, k + 1) == match Strip(t, k) { case Some(TPtr(u)) => Some(u) case _ => None }
  {
    if k > 0 && t.TPtr? {
      StripStep(t.target, k - 1);
    }
  }

  lemma {:induction false} StripBeyond(t: Ty, k: nat, n: nat)
    requires k <= n && Strip(t, k).None?
    ensures Strip(t, n).None?
    decreases n
  {
    if k < n {
      StripBeyond(t, k, n - 1);
      StripStep(t, n - 1);
    }
  }

  lemma {:induction false} LoadChainSnoc(k: nat)
    ensures LoadChain(k + 1) == LoadChain(k) + LOAD_POINTED
  {
    if k == 0 {
      assert LoadChain(0) == [] && LOAD_POINTED + [] == LOAD_POINTED;
    } else {
      LoadChainSnoc(k - 1);
      assert LOAD_POINTED + (LoadChain(k - 1) + LOAD_POINTED) == LOAD_POINTED + LoadChain(k - 1) + LOAD_POINTED;
    }
  }

  lemma AssignTree(ts: seq<Token>)
    ensures var k := CountCarets(ts);
      && (Peek(ts[k..]) != Token.Assign ==> ParseAssign(ts).Fail?)
      && (Peek(ts[k..]) == Token.Assign ==>
            var r := ParseExpr(ts[k..][1..]);
            ParseAssign(ts) == if r.Got? then Got(Assigned(k, r.v), r.rest) else Fail)
  {
    hide ParseExpr;
    var k := CountCarets(ts);
    if Peek(ts[k..]) == Token.Assign {
      assert ts[k..][1..] == ts[k + 1..];
    }
  }

  // ---------- statements ----------

  /** The statements of an IF, from behind THEN. */
  datatype Branches = Branches(thn: Stmt, els: Option<Stmt>)

  function ParseBranches(ts: seq<Token>): Parsed<Branches> {
    match ParseStmt(ts)
    case Fail => Fail
    case Got(t, rest) =>
      if Peek(rest) != KElse then Got(Branches(t, None), rest)
      else
        match ParseStmt(rest[1..])
        case Got(f, rest') => Got(Branches(t, Some(f)), rest')
        case Fail => Fail
  }

  predicate CheckBranches(c: Scope, b: Branches) {
    CheckStmt(c, b.thn) && (b.els.Some? ==> CheckStmt(c, b.els.value))
  }

  function BranchesCode(c: Scope, b: Branches, g: nat, tag: nat): Frag {
    var ft := StmtCode(c, b.thn, tag);
    if b.els.None? then Frag(ft.code + [Def(LFalse(g))] + [Def(LNext(g))], ft.tag)
    else
      var ff := StmtCode(c, b.els.value, ft.tag);
      Frag(ft.code + [Jmp(LNext(g)), Def(LFalse(g))] + ff.code + [Def(LNext(g))], ff.tag)
  }

  function IfOf(e: Expr, b: Branches): Stmt {
    if b.els.None? then IfOnly(e, b.thn) else IfElse(e, b.thn, b.els.value)
  }

  lemma IfTree(ts: seq<Token>)
    requires Peek(ts) == KIf
    ensures var e := ParseExpr(ts[1..]);
      && (!(e.Got? && Peek(e.rest) == KThen) ==> ParseStmt(ts).Fail?)
      && (e.Got? && Peek(e.rest) == KThen ==>
            var b := ParseBranches(e.rest[1..]);
            ParseStmt(ts) == if b.Got? then Got(IfOf(e.v, b.v), b.rest) else Fail)
  {
    hide ParseExpr;
  }

  lemma IfOfTree(c: Scope, e: Expr, b: Branches, tag: nat)
    ensures CheckStmt(c, IfOf(e, b)) <==> CheckExpr(c, e) == Some(TBool) && CheckBranches(c, b)
    ensures var fe := ExprCode(c, e, tag + 1);
      var fb := BranchesCode(c, b, tag + 1, fe.tag);
      StmtCode(c, IfOf(e, b), tag)
        == Frag(fe.code + (Branch(LFalse(tag + 1)) + [Def(LTrue(tag + 1))]) + fb.code, fb.tag)
  {
    hide ExprCode, CheckExpr, Branch;
    var fe := ExprCode(c, e, tag + 1);
    var ft := StmtCode(c, b.thn, fe.tag);
    var start, n := fe.code + Branch(LFalse(tag + 1)) + [Def(LTrue(tag + 1))], [Def(LNext(tag + 1))];
    Emitted(fe.code, Branch(LFalse(tag + 1)), [Def(LTrue(tag + 1))]);
    if b.els.None? {
      assert [Def(LFalse(tag + 1)), Def(LNext(tag + 1))] == [Def(LFalse(tag + 1))] + n;
      Emitted(ft.code, [Def(LFalse(tag + 1))], n);
      Emitted(start, ft.code, [Def(LFalse(tag + 1))] + n);
    } else {
      Emitted5(start, ft.code, [Jmp(LNext(tag + 1)), Def(LFalse(tag + 1))], StmtCode(c, b.els.value, ft.tag).code, n);
    }
  }

  lemma WhileTree(ts: seq<Token>)
    requires Peek(ts) == KWhile
    ensures var e := ParseExpr(ts[1..]);
      && (!(e.Got? && Peek(e.rest) == KDo) ==> ParseStmt(ts).Fail?)
      && (e.Got? && Peek(e.rest) == KDo ==>
            var b := ParseStmt(e.rest[1..]);
            ParseStmt(ts) == if b.Got? then Got(Loop(e.v, b.v), b.rest) else Fail)
  {
    hide ParseExpr;
  }

  lemma LoopTree(c: Scope, e: Expr, b: Stmt, tag: nat)
    ensures CheckStmt(c, Loop(e, b)) <==> CheckExpr(c, e) == Some(TBool) && CheckStmt(c, b)
    ensures var fe := ExprCode(c, e, tag + 1);
      var fb := StmtCode(c, b, fe.tag);
      StmtCode(c, Loop(e, b), tag)
        == Frag([Def(LWhile(tag + 1))] + fe.code + Branch(LNext(tag + 1)) + fb.code
                + [Jmp(LWhile(tag + 1)), Def(LNext(tag + 1))], fb.tag)
  {
    hide ExprCode, CheckExpr;
  }

  /** The bound and the body of a FOR, from behind its assignment. */
  datatype Rounds = Rounds(to: Expr, body: Stmt)

  function ParseRounds(ts: seq<Token>): Parsed<Rounds> {
    if Peek(ts) != KTo then Fail else
    match ParseExpr(ts[1..])
    case Fail => Fail
    case Got(e, rest) =>
      if Peek(rest) != KDo then Fail else
      match ParseStmt(rest[1..])
      case Fail => Fail
      case Got(b, rest') => Got(Rounds(e, b), rest')
  }

  predicate CheckRounds(c: Scope, r: Rounds) {
    CheckExpr(c, r.to) == Some(TInt) && CheckStmt(c, r.body)
  }

  function RoundsCode(c: Scope, x: Name, r: Rounds, t: nat): Frag {
    var f1 := ExprCode(c, r.to, t);
    var fb := StmtCode(c, r.body, f1.tag);
    Frag([Def(LFor(t))] + f1.code + [PopReg(RAX), CmpVar(x), Jcc(L, LNext(t))] + fb.code
         + [IncVar(x), Jmp(LFor(t)), Def(LNext(t))], fb.tag)
  }

  lemma ForTree(ts: seq<Token>)
    requires Peek(ts) == KFor
    ensures !Peek(ts[1..]).Id? ==> ParseStmt(ts).Fail?
    ensures Peek(ts[1..]).Id? ==>
      var a := ParseAssign(ts[1..][1..]);
      && (a.Fail? ==> ParseStmt(ts).Fail?)
      && (a.Got? ==>
            var r := ParseRounds(a.rest);
            ParseStmt(ts) == if r.Got? then Got(ForTo(ts[1..][0], a.v.carets, a.v.e, r.v.to, r.v.body),
                                                r.rest) else Fail)
  {
    hide ParseExpr, ParseAssign;
    assert ParseStmt(ts) == ParseFor(ts[1..]);
  }

  lemma ForToTree(c: Scope, x: Name, a: Assigned, r: Rounds, tag: nat)
    ensures CheckStmt(c, ForTo(x, a.carets, a.e, r.to, r.body))
       <==> (CheckAssign(c, x, a.carets, a.e) && a.carets == 0 && c.vars[x].TInt? && CheckRounds(c, r))
    ensures var f0 := ExprCode(c, a.e, tag);
      var fr := RoundsCode(c, x, r, f0.tag + 1);
      StmtCode(c, ForTo(x, a.carets, a.e, r.to, r.body), tag) == Frag(f0.code + StoreCode(x, a.carets) + fr.code,
          fr.tag)
  {
    hide ExprCode, CheckExpr, StoreCode;
    var f0 := ExprCode(c, a.e, tag);
    var t := f0.tag + 1;
    var f1 := ExprCode(c, r.to, t);
    Emitted6(f0.code + StoreCode(x, a.carets), [Def(LFor(t))], f1.code, [PopReg(RAX), CmpVar(x), Jcc(L, LNext(t))],
             StmtCode(c, r.body, f1.tag).code, [IncVar(x), Jmp(LFor(t)), Def(LNext(t))]);
  }

  lemma ShowTree(ts: seq<Token>, c: Scope, tag: nat)
    requires Peek(ts) == KDisplay
    ensures var e := ParseExpr(ts[1..]);
      && ParseStmt(ts) == (if e.Got? then Got(Show(e.v), e.rest) else Fail)
      && (e.Got? ==>
            && (CheckStmt(c, Show(e.v)) <==> CheckExpr(c, e.v).Some? && !CheckExpr(c, e.v).value.TPtr?)
            && (CheckExpr(c, e.v).Some? ==>
                  var fe := ExprCode(c, e.v, tag);
                  StmtCode(c, Show(e.v), tag) == Frag(fe.code + DisplayCode(CheckExpr(c, e.v).value), fe.tag)))
  {
    hide ParseExpr, ExprCode, CheckExpr, DisplayCode;
  }

  lemma CallStmtTree(ts: seq<Token>, c: Scope, tag: nat)
    requires Peek(ts).Id? && Peek(ts[1..]) == LParen
    ensures var r := ParseArgs(ts[1..][1..]);
      && ParseStmt(ts) == (if r.Got? then Got(CallStmt(ts[0], r.v), r.rest) else Fail)
      && (r.Got? ==>
            && (CheckStmt(c, CallStmt(ts[0], r.v)) <==>
                  ts[0] in c.funcs && Callable(c.funcs[ts[0]]) && CheckArgs(c, r.v, c.funcs[ts[0]].params))
            && (ts[0] in c.funcs ==>
                  var f := ArgsCode(c, r.v, tag, 0, 0);
                  StmtCode(c, CallStmt(ts[0], r.v), tag) == Frag(f.code + FinishCall(ts[0], c.funcs[ts[0]].ret),
                      f.tag)))
  {
    hide ParseArgs, ArgsCode, Callable, CheckArgs, FinishCall;
    assert ts[1..][1..] == ts[2..];
  }

  lemma AssignStmtTree(ts: seq<Token>, c: Scope, tag: nat)
    requires Peek(ts).Id? && Peek(ts[1..]) != LParen
    ensures var a := ParseAssign(ts[1..]);
      && ParseStmt(ts) == (if a.Got? then Got(Assignment(ts[0], a.v.carets, a.v.e), a.rest) else Fail)
      && (a.Got? ==>
            var fe := ExprCode(c, a.v.e, tag);
            && CheckStmt(c, Assignment(ts[0], a.v.carets, a.v.e)) == CheckAssign(c, ts[0], a.v.carets, a.v.e)
            && StmtCode(c, Assignment(ts[0], a.v.carets, a.v.e), tag) == Frag(fe.code + StoreCode(ts[0], a.v.carets),
                fe.tag))
  {
    hide ParseAssign, ExprCode, CheckAssign, StoreCode;
  }

  lemma OtherStmt(ts: seq<Token>)
    requires var t := Peek(ts); t != KIf && t != KWhile && t != KFor && t != KBegin && t != KDisplay && !t.Id?
    ensures ParseStmt(ts).Fail?
  {}

  // ---------- blocks ----------

  /** The block whose first statements are `done` and whose other items start at `ts`. */
  function AtItem(done: seq<Stmt>, ts: seq<Token>): Parsed<Stmt> {
    if Peek(ts) == KEnd then Got(Block(done, done != []), ts[1..])
    else
      match ParseItems(ts)
      case Got(b, rest) => Got(Block(done + b.stmts, b.trailing), rest)
      case Fail => Fail
  }

  lemma BlockStart(ts: seq<Token>)
    ensures Peek(ts) != KBegin ==> ParseBlock(ts).Fail?
    ensures Peek(ts) == KBegin ==> ParseBlock(ts) == AtItem([], ts[1..])
    ensures Peek(ts) == KBegin ==> ParseStmt(ts) == ParseBlock(ts)
  {
    if Peek(ts) == KBegin && Peek(ts[1..]) == KEnd {
      assert ts[1..][1..] == ts[2..];
    }
    if Peek(ts) == KBegin && ParseItems(ts[1..]).Got? {
      var b := ParseItems(ts[1..]).v;
      assert [] + b.stmts == b.stmts;
    }
  }

  /** One round of the block loop. */
  lemma ItemRound(done: seq<Stmt>, ts: seq<Token>)
    requires Peek(ts) != KEnd
    ensures var s := ParseStmt(ts);
      && (s.Fail? ==> AtItem(done, ts).Fail?)
      && (s.Got? && Peek(s.rest) == Semicolon ==> AtItem(done, ts) == AtItem(done + [s.v], s.rest[1..]))
      && (s.Got? && Peek(s.rest) != Semicolon ==>
            AtItem(done, ts) == if Peek(s.rest) == KEnd then Got(Block(done + [s.v], false), s.rest[1..]) else Fail)
  {
    hide ParseStmt;
    var s := ParseStmt(ts);
    if s.Got? && Peek(s.rest) == Semicolon {
      if Peek(s.rest[1..]) == KEnd {
        assert s.rest[1..][1..] == s.rest[2..];
      } else if ParseItems(s.rest[1..]).Got? {
        var b := ParseItems(s.rest[1..]).v;
        assert done + ([s.v] + b.stmts) == done + [s.v] + b.stmts;
      }
    }
  }

  /** The statements before an item are a prefix of the block, so a bad one spoils it. */
  lemma BadItem(c: Scope, done: seq<Stmt>, ts: seq<Token>)
    requires !CheckStmts(c, done)
    ensures AtItem(done, ts).Got? ==> !CheckStmt(c, AtItem(done, ts).v)
  {
    hide ParseItems, CheckStmts;
    if AtItem(done, ts).Got? {
      var b := AtItem(done, ts).v;
      assert b.stmts == done + b.stmts[|done|..];
      CheckSplit(c, done, b.stmts[|done|..]);
      CheckBlock(c, b.stmts, b.trailing, 0);
    }
  }

  /** A statement that does not check spoils every block it is an item of. */
  lemma SpoiltBlock(c: Scope, done: seq<Stmt>, s: Stmt, rest: seq<Token>, block: Parsed<Stmt>)
    requires !CheckStmts(c, done + [s])
    requires if Peek(rest) == Semicolon then block == AtItem(done + [s], rest[1..])
             else block == if Peek(rest) == KEnd then Got(Block(done + [s], false), rest[1..]) else Fail
    ensures block.Got? ==> !CheckStmt(c, block.v)
  {
    hide AtItem, CheckStmts;
    if Peek(rest) == Semicolon {
      BadItem(c, done + [s], rest[1..]);
    } else {
      CheckBlock(c, done + [s], false, 0);
    }
  }

  lemma ItemEnd(done: seq<Stmt>, ts: seq<Token>)
    ensures Peek(ts) == KEnd ==> AtItem(done, ts) == Got(Block(done, done != []), Advance(ts))
  {}

  lemma NoItems(c: Scope, tag: nat)
    ensures CheckStmts(c, []) && StmtsCode(c, [], tag) == Frag([], tag)
  {}

  lemma CheckBlock(c: Scope, ss: seq<Stmt>, trailing: bool, tag: nat)
    ensures CheckStmt(c, Block(ss, trailing)) == CheckStmts(c, ss)
    ensures StmtCode(c, Block(ss, trailing), tag) == StmtsCode(c, ss, tag)
  {}

  lemma {:induction false} CheckSplit(c: Scope, a: seq<Stmt>, b: seq<Stmt>)
    ensures CheckStmts(c, a + b) <==> CheckStmts(c, a) && CheckStmts(c, b)
    decreases |a|
  {
    hide CheckStmt;
    if a == [] {
      assert a + b == b;
    } else {
      CheckSplit(c, a[1..], b);
      assert (a + b)[0] == a[0] && (a + b)[1..] == a[1..] + b;
    }
  }

  /** A block grows to the right by one statement. */
  lemma {:induction false} StmtsSnoc(c: Scope, ss: seq<Stmt>, s: Stmt, tag: nat)
    ensures CheckStmts(c, ss + [s]) <==> CheckStmts(c, ss) && CheckStmt(c, s)
    ensures var f := StmtsCode(c, ss, tag);
      var g := StmtCode(c, s, f.tag);
      StmtsCode(c, ss + [s], tag) == Frag(f.code + g.code, g.tag)
    decreases |ss|
  {
    hide CheckStmt, StmtCode;
    if ss == [] {
      assert ss + [s] == [s] && [s][1..] == [];
    } else {
      var f := StmtCode(c, ss[0], tag);
      StmtsSnoc(c, ss[1..], s, f.tag);
      var h := StmtsCode(c, ss[1..], f.tag);
      var g := StmtCode(c, s, h.tag);
      assert (ss + [s])[0] == ss[0] && (ss + [s])[1..] == ss[1..] + [s];
      assert f.code + (h.code + g.code) == f.code + h.code + g.code;
    }
  }

  // ---------- regrouping emitted code ----------

  lemma Emitted(o: seq<Instr>, a: seq<Instr>, b: seq<Instr>)
    ensures o + a + b == o + (a + b)
  {}

  lemma Emitted4(o: seq<Instr>, a: seq<Instr>, b: seq<Instr>, c: seq<Instr>)
    ensures o + a + b + c == o + (a + b + c)
  {
    Emitted(o, a, b);
    Emitted(o, a + b, c);
  }

  lemma Emitted5(o: seq<Instr>, a: seq<Instr>, b: seq<Instr>, c: seq<Instr>, d: seq<Instr>)
    ensures o + a + b + c + d == o + (a + b + c + d)
  {
    Emitted(o, a, b);
    Emitted(o, a + b, c);
    Emitted(o, a + b + c, d);
  }

  lemma Emitted6(o: seq<Instr>, a: seq<Instr>, b: seq<Instr>, c: seq<Instr>, d: seq<Instr>, e: seq<Instr>)
    ensures o + a + b + c + d + e == o + (a + b + c + d + e)
  {
    Emitted5(o, a, b, c, d);
    Emitted(o, a + b + c + d, e);
  }
}
