/** Printing and parsing are inverse: the grammar of the parser is exactly the trees that fit. */
module RoundTrip {
  import opened Syntax
  import opened Grammar

  /** The token cannot continue an expression at level `k` that ends in front of it. */
  predicate Stops(t: Token, k: nat) {
    && t != LParen
    && (k >= 1 ==> t != Caret)
    && (k >= 2 ==> !IsMulTok(t))
    && (k >= 3 ==> !IsAddTok(t))
    && (k >= 4 ==> !t.Relational?)
  }

  lemma {:induction false} TypeComplete(t: TypeExpr, rest: seq<Token>)
    requires PlainType(t)
    ensures ParseType(PrintType(t) + rest) == Got(t, rest)
  {
    var ts := PrintType(t) + rest;
    match t
    case Named(_) => assert ts[1..] == rest;
    case Alias(_) => assert ts[1..] == rest;
    case PointerTo(u) =>
      TypeComplete(u, rest);
      assert ts[1..] == PrintType(u) + rest;
  }

  lemma CaretStop(e: Expr, ts: seq<Token>)
    requires Peek(ts) != Caret
    ensures CaretLoop(e, ts) == Got(e, ts)
  {}

  lemma ParenStep(ts: seq<Token>, e: Expr, rest: seq<Token>)
    requires ParseExpr(ts) == Got(e, [RParen] + rest)
    ensures ParsePrimary([LParen] + ts) == Got(Paren(e), rest)
  {
    hide ParseExpr;
    assert ([LParen] + ts)[1..] == ts && ([RParen] + rest)[1..] == rest;
  }

  lemma NegateStep(ts: seq<Token>, e: Expr, rest: seq<Token>)
    requires ParseFactor(ts) == Got(e, rest)
    ensures ParsePrimary([Bang] + ts) == Got(Negate(e), rest)
  {
    hide ParseFactor;
    assert ([Bang] + ts)[1..] == ts;
  }

  lemma CallStep(f: Name, ts: seq<Token>, args: seq<Expr>, rest: seq<Token>)
    requires f.Id? && ParseArgs(ts) == Got(args, rest)
    ensures ParsePrimary([f, LParen] + ts) == Got(Call(f, args), rest)
  {
    hide ParseArgs;
    var all := [f, LParen] + ts;
    assert all[1..] == [LParen] + ts && all[2..] == ts;
  }

  lemma ConvStep(ts: seq<Token>, e: Expr, ts': seq<Token>, te: TypeExpr, rest: seq<Token>)
    requires ParseExpr(ts) == Got(e, [KTo] + ts') && ParseType(ts') == Got(te, rest)
    ensures ParsePrimary([KConvert] + ts) == Got(Conv(e, te), rest)
  {
    hide ParseExpr, ParseType;
    assert ([KConvert] + ts)[1..] == ts && ([KTo] + ts')[1..] == ts';
  }

  lemma LeafStep(e: Expr, rest: seq<Token>)
    requires e.Lit? || e.Var? || e.Ref?
    requires Fits(e, 0) && Peek(rest) != LParen
    ensures ParsePrimary(Print(e) + rest) == Got(e, rest)
  {
    var ts := Print(e) + rest;
    if e.Ref? {
      assert ts[1..] == [e.x] + rest && ts[2..] == rest;
    } else {
      assert ts[1..] == rest;
    }
  }

  lemma Regroup(a: seq<Token>, b: seq<Token>, c: seq<Token>, d: seq<Token>)
    ensures a + b + c + d == a + (b + (c + d))
  {}

  lemma Regroup2(a: seq<Token>, b: seq<Token>, c: seq<Token>)
    ensures a + b + c == a + (b + c)
  {}

  lemma Regroup5(a: seq<Token>, b: seq<Token>, c: seq<Token>, d: seq<Token>, e: seq<Token>)
    ensures a + b + c + d + e == a + (b + (c + (d + e)))
  {}

  lemma {:induction false} ParenComplete(a: Expr, rest: seq<Token>)
    requires Fits(a, 4)
    ensures ParsePrimary(Print(Paren(a)) + rest) == Got(Paren(a), rest)
    decreases a, 5
  {
    hide ParsePrimary, ParseExpr, Fits;
    ExprComplete(a, [RParen] + rest);
    ParenStep(Print(a) + ([RParen] + rest), a, rest);
    Regroup([LParen], Print(a), [RParen], rest);
  }

  lemma {:induction false} ConvComplete(a: Expr, te: TypeExpr, rest: seq<Token>)
    requires Fits(a, 4) && PlainType(te)
    ensures ParsePrimary(Print(Conv(a, te)) + rest) == Got(Conv(a, te), rest)
    decreases a, 5
  {
    hide ParsePrimary, ParseExpr, ParseType, Fits;
    var ts' := PrintType(te) + rest;
    ExprComplete(a, [KTo] + ts');
    TypeComplete(te, rest);
    ConvStep(Print(a) + ([KTo] + ts'), a, ts', te, rest);
    Regroup5([KConvert], Print(a), [KTo], PrintType(te), rest);
  }

  lemma {:induction false} CallComplete(f: Name, args: seq<Expr>, rest: seq<Token>)
    requires f.Id? && FitsAll(args)
    ensures ParsePrimary(Print(Call(f, args)) + rest) == Got(Call(f, args), rest)
    decreases args, 7
  {
    hide ParsePrimary, ParseArgs, FitsAll;
    ArgsComplete(args, rest);
    CallStep(f, PrintArgs(args) + rest, args, rest);
    Regroup([f, LParen], PrintArgs(args), [], rest);
    assert [f, LParen] + PrintArgs(args) + [] == [f, LParen] + PrintArgs(args);
    assert [] + rest == rest;
  }

  lemma {:induction false} PrimaryComplete(e: Expr, rest: seq<Token>)
    requires Fits(e, 0) && Stops(Peek(rest), if e.Negate? then 1 else 0)
    ensures ParsePrimary(Print(e) + rest) == Got(e, rest)
    decreases e, 0
  {
    hide ParsePrimary, ParseFactor, CaretLoop, PrintArgs, PrintType, FitsAll, PlainType;
    match e
    case Negate(a) =>
      FactorComplete(a, rest);
      CaretStop(a, rest);
      NegateStep(Print(a) + rest, a, rest);
      assert Print(e) + rest == [Bang] + (Print(a) + rest);
    case Paren(a) => ParenComplete(a, rest);
    case Conv(a, te) => ConvComplete(a, te, rest);
    case Call(f, args) => CallComplete(f, args, rest);
    case _ => LeafStep(e, rest);
  }

  /** What fitting asks of the operands of an infix tree, and how it prints. */
  lemma InfixParts(e: Expr, k: nat, rest: seq<Token>)
    requires Fits(e, k) && (e.Bin? || e.Rel?)
    ensures e.Bin? && IsMulOp(e.op) ==> Fits(e.l, 2) && Fits(e.r, 1)
    ensures e.Bin? && !IsMulOp(e.op) ==> Fits(e.l, 3) && Fits(e.r, 2)
    ensures e.Rel? ==> Fits(e.l, 3) && Fits(e.r, 3)
    ensures var t := if e.Bin? then Binary(e.op) else Relational(e.rel);
      var rest' := [t] + (Print(e.r) + rest);
      Print(e) + rest == Print(e.l) + rest' && rest'[0] == t && rest'[1..] == Print(e.r) + rest
  {
    var t := if e.Bin? then Binary(e.op) else Relational(e.rel);
    Regroup(Print(e.l), [t], Print(e.r), rest);
  }

  lemma FitsLower(e: Expr, k: nat, j: nat)
    requires Fits(e, k) && Level(e) <= j
    ensures Fits(e, j)
  {}

  /** Parsing a printed factor ends up in the dereference loop, behind the factor. */
  lemma {:induction false} FactorComplete(e: Expr, rest: seq<Token>)
    requires Fits(e, 1) && Peek(rest) != LParen && (e.Negate? ==> Peek(rest) != Caret)
    ensures ParseFactor(Print(e) + rest) == CaretLoop(e, rest)
    decreases e, 1
  {
    if e.Deref? {
      var rest' := [Caret] + rest;
      assert Print(e) + rest == Print(e.e) + rest';
      FactorComplete(e.e, rest');
      assert rest'[1..] == rest;
    } else {
      PrimaryComplete(e, rest);
    }
  }

  lemma TermStop(e: Expr, ts: seq<Token>)
    requires !IsMulTok(Peek(ts))
    ensures TermLoop(e, ts) == Got(e, ts)
  {}

  lemma {:induction false} TermComplete(e: Expr, rest: seq<Token>)
    requires Fits(e, 2) && Stops(Peek(rest), 1)
    ensures ParseTerm(Print(e) + rest) == TermLoop(e, rest)
    decreases e, 2
  {
    FitsLevel(e, 2);
    hide ParseFactor, CaretLoop, Print, Fits;
    if e.Bin? {
      InfixParts(e, 2, rest);
      TermComplete(e.l, [Binary(e.op)] + (Print(e.r) + rest));
      FactorComplete(e.r, rest);
      CaretStop(e.r, rest);
    } else {
      FitsLower(e, 2, 1);
      FactorComplete(e, rest);
      CaretStop(e, rest);
    }
  }

  lemma {:induction false} SimpleComplete(e: Expr, rest: seq<Token>)
    requires Fits(e, 3) && Stops(Peek(rest), 2)
    ensures ParseSimple(Print(e) + rest) == SimpleLoop(e, rest)
    decreases e, 3
  {
    FitsLevel(e, 3);
    hide ParseTerm, TermLoop, Print, Fits;
    if e.Bin? && !IsMulOp(e.op) {
      InfixParts(e, 3, rest);
      SimpleComplete(e.l, [Binary(e.op)] + (Print(e.r) + rest));
      TermComplete(e.r, rest);
      TermStop(e.r, rest);
    } else {
      FitsLower(e, 3, 2);
      TermComplete(e, rest);
      TermStop(e, rest);
    }
  }

  /** Every tree that fits parses back to itself, up to the first token that cannot continue it. */
  lemma {:induction false} ExprComplete(e: Expr, rest: seq<Token>)
    requires Fits(e, 4) && Stops(Peek(rest), 4)
    ensures ParseExpr(Print(e) + rest) == Got(e, rest)
    decreases e, 4
  {
    FitsLevel(e, 4);
    hide ParseSimple, SimpleLoop, Print, Fits;
    if e.Rel? {
      InfixParts(e, 4, rest);
      SimpleComplete(e.l, [Relational(e.rel)] + (Print(e.r) + rest));
      SimpleStop(e.l, [Relational(e.rel)] + (Print(e.r) + rest));
      SimpleComplete(e.r, rest);
      SimpleStop(e.r, rest);
    } else {
      FitsLower(e, 4, 3);
      SimpleComplete(e, rest);
      SimpleStop(e, rest);
    }
  }

  lemma SimpleStop(e: Expr, ts: seq<Token>)
    requires !IsAddTok(Peek(ts))
    ensures SimpleLoop(e, ts) == Got(e, ts)
  {}

  lemma FitsLevel(e: Expr, k: nat)
    requires Fits(e, k)
    ensures Level(e) <= k
  {}

  lemma {:induction false} ArgsComplete(args: seq<Expr>, rest: seq<Token>)
    requires FitsAll(args)
    ensures ParseArgs(PrintArgs(args) + rest) == Got(args, rest)
    decreases args, 6
  {
    if args == [] {
      assert ([RParen] + rest)[1..] == rest;
    } else {
      ArgListComplete(args, rest);
      NotEmptyArgs(args, rest);
    }
  }

  /** No expression starts with a closing parenthesis. */
  lemma {:induction false} FirstToken(e: Expr, k: nat)
    requires Fits(e, k)
    ensures Print(e) != [] && Print(e)[0] != RParen
    decreases e
  {
    match e
    case Bin(_, l, _) => FirstToken(l, 3);
    case Rel(_, l, _) => FirstToken(l, 3);
    case Deref(a) => FirstToken(a, 1);
    case _ =>
  }

  lemma NotEmptyArgs(args: seq<Expr>, rest: seq<Token>)
    requires args != [] && FitsAll(args)
    ensures Peek(PrintArgList(args) + rest) != RParen
  {
    FirstToken(args[0], 4);
  }

  lemma LastArgStep(ts: seq<Token>, e: Expr, rest: seq<Token>)
    requires ParseExpr(ts) == Got(e, [RParen] + rest)
    ensures ParseArgList(ts) == Got([e], rest)
  {
    hide ParseExpr;
    assert ([RParen] + rest)[1..] == rest;
  }

  lemma NextArgStep(ts: seq<Token>, e: Expr, ts': seq<Token>, es: seq<Expr>, rest: seq<Token>)
    requires ParseExpr(ts) == Got(e, [Comma] + ts') && ParseArgList(ts') == Got(es, rest)
    ensures ParseArgList(ts) == Got([e] + es, rest)
  {
    hide ParseExpr;
    assert ([Comma] + ts')[1..] == ts';
  }

  lemma {:induction false} ArgListComplete(args: seq<Expr>, rest: seq<Token>)
    requires args != [] && FitsAll(args)
    ensures ParseArgList(PrintArgList(args) + rest) == Got(args, rest)
    decreases args, 5
  {
    hide ParseExpr, ParseArgList, Print, Fits;
    var first := Print(args[0]);
    if |args| == 1 {
      ExprComplete(args[0], [RParen] + rest);
      LastArgStep(first + ([RParen] + rest), args[0], rest);
      assert args == [args[0]];
      Regroup([], first, [RParen], rest);
      assert [] + first == first && [] + (first + ([RParen] + rest)) == first + ([RParen] + rest);
    } else {
      assert args == [args[0]] + args[1..];
      var ts' := PrintArgList(args[1..]) + rest;
      ExprComplete(args[0], [Comma] + ts');
      ArgListComplete(args[1..], rest);
      NextArgStep(first + ([Comma] + ts'), args[0], ts', args[1..], rest);
      Regroup(first, [Comma], PrintArgList(args[1..]), rest);
    }
  }

  // ---------- soundness ----------

  lemma {:induction false} TypeSound(ts: seq<Token>)
    ensures ParseType(ts).Got? ==> ts == PrintType(ParseType(ts).v) + ParseType(ts).rest && PlainType(ParseType(ts).v)
    decreases |ts|
  {
    if Peek(ts) == Caret {
      TypeSound(ts[1..]);
    }
  }

  /** What a parse consumed is the printing of a tree that fits. */
  ghost predicate Reads(ts: seq<Token>, r: Parsed<Expr>, k: nat) {
    r.Got? ==> ts == Print(r.v) + r.rest && Fits(r.v, k)
  }

  lemma {:induction false} PrimarySound(ts: seq<Token>)
    ensures Reads(ts, ParsePrimary(ts), 0)
    decreases |ts|, 0
  {
    hide ParseExpr, ParseFactor, ParseArgs, ParseType, CaretLoop, PrintArgs, PrintType, FitsAll, PlainType;
    var r := ParsePrimary(ts);
    if r.Got? {
      match Peek(ts)
      case LParen =>
        ExprSound(ts[1..]);
        var e := ParseExpr(ts[1..]);
        assert e.rest == [RParen] + r.rest;
      case Bang => FactorSound(ts[1..]);
      case At => assert ts == [At, ts[1]] + ts[2..];
      case Id(_) =>
        if Peek(ts[1..]) == LParen {
          ArgsSound(ts[2..]);
          assert ts == [ts[0], LParen] + ts[2..];
        }
      case KConvert => ConvSound(ts);
      case _ =>
    }
  }

  lemma {:induction false} ConvSound(ts: seq<Token>)
    requires Peek(ts) == KConvert && ts != []
    ensures Reads(ts, ParsePrimary(ts), 0)
    decreases |ts[1..]|, 7
  {
    hide ParseExpr, ParseType, PrintType, PlainType;
    ExprSound(ts[1..]);
    var e := ParseExpr(ts[1..]);
    if ParsePrimary(ts).Got? {
      TypeSound(Advance(e.rest));
      var te := ParseType(Advance(e.rest));
      assert ts == [KConvert] + ts[1..] && e.rest == [KTo] + Advance(e.rest);
      Regroup5([KConvert], Print(e.v), [KTo], PrintType(te.v), te.rest);
    }
  }

  lemma {:induction false} CaretSound(e: Expr, ts: seq<Token>)
    requires Fits(e, 1) && (e.Negate? ==> Peek(ts) != Caret)
    ensures var r := CaretLoop(e, ts); Print(e) + ts == Print(r.v) + r.rest && Fits(r.v, 1)
    decreases |ts|
  {
    if Peek(ts) == Caret {
      CaretSound(Deref(e), ts[1..]);
      assert Print(e) + ts == Print(Deref(e)) + ts[1..];
    }
  }

  /** `!` has taken every dereference that followed its operand. */
  lemma {:induction false} NegateTakesAll(ts: seq<Token>)
    requires ParsePrimary(ts).Got? && ParsePrimary(ts).v.Negate?
    ensures Peek(ParsePrimary(ts).rest) != Caret
  {
    assert Peek(ts) == Bang;
    assert ParseFactor(ts[1..]).Got?;
    var p := ParsePrimary(ts[1..]);
    CaretsGone(p.v, p.rest);
  }

  lemma {:induction false} CaretsGone(e: Expr, ts: seq<Token>)
    ensures Peek(CaretLoop(e, ts).rest) != Caret
    decreases |ts|
  {
    if Peek(ts) == Caret {
      CaretsGone(Deref(e), ts[1..]);
    }
  }

  lemma {:induction false} FactorSound(ts: seq<Token>)
    ensures Reads(ts, ParseFactor(ts), 1)
    decreases |ts|, 1
  {
    PrimarySound(ts);
    var p := ParsePrimary(ts);
    if p.Got? {
      if p.v.Negate? {
        NegateTakesAll(ts);
      }
      CaretSound(p.v, p.rest);
    }
  }

  lemma {:induction false} TermLoopSound(l: Expr, ts: seq<Token>)
    requires Fits(l, 2)
    ensures var r := TermLoop(l, ts); r.Got? ==> Print(l) + ts == Print(r.v) + r.rest && Fits(r.v, 2)
    decreases |ts|, 2
  {
    if IsMulTok(Peek(ts)) {
      FactorSound(ts[1..]);
      var f := ParseFactor(ts[1..]);
      if f.Got? {
        var e := Bin(ts[0].op, l, f.v);
        TermLoopSound(e, f.rest);
        assert Print(l) + ts == Print(e) + f.rest;
      }
    }
  }

  lemma {:induction false} TermSound(ts: seq<Token>)
    ensures Reads(ts, ParseTerm(ts), 2)
    decreases |ts|, 3
  {
    FactorSound(ts);
    var f := ParseFactor(ts);
    if f.Got? {
      TermLoopSound(f.v, f.rest);
    }
  }

  lemma {:induction false} SimpleLoopSound(l: Expr, ts: seq<Token>)
    requires Fits(l, 3)
    ensures var r := SimpleLoop(l, ts); r.Got? ==> Print(l) + ts == Print(r.v) + r.rest && Fits(r.v, 3)
    decreases |ts|, 4
  {
    if IsAddTok(Peek(ts)) {
      TermSound(ts[1..]);
      var f := ParseTerm(ts[1..]);
      if f.Got? {
        var e := Bin(ts[0].op, l, f.v);
        SimpleLoopSound(e, f.rest);
        assert Print(l) + ts == Print(e) + f.rest;
      }
    }
  }

  lemma {:induction false} SimpleSound(ts: seq<Token>)
    ensures Reads(ts, ParseSimple(ts), 3)
    decreases |ts|, 5
  {
    TermSound(ts);
    var f := ParseTerm(ts);
    if f.Got? {
      SimpleLoopSound(f.v, f.rest);
    }
  }

  /** Every accepted expression is the printing of a tree that fits. */
  lemma {:induction false} ExprSound(ts: seq<Token>)
    ensures Reads(ts, ParseExpr(ts), 4)
    decreases |ts|, 6
  {
    SimpleSound(ts);
    var l := ParseSimple(ts);
    if l.Got? && Peek(l.rest).Relational? {
      SimpleSound(l.rest[1..]);
      assert l.rest == [l.rest[0]] + l.rest[1..];
    }
  }

  lemma {:induction false} ArgsSound(ts: seq<Token>)
    ensures var r := ParseArgs(ts); r.Got? ==> ts == PrintArgs(r.v) + r.rest && FitsAll(r.v)
    decreases |ts|, 8
  {
    if Peek(ts) == RParen {
      assert ts == [RParen] + ts[1..];
    } else {
      ArgListSound(ts);
    }
  }

  lemma {:induction false} ArgListSound(ts: seq<Token>)
    ensures var r := ParseArgList(ts); r.Got? ==> r.v != [] && ts == PrintArgList(r.v) + r.rest && FitsAll(r.v)
    decreases |ts|, 7
  {
    ExprSound(ts);
    var e := ParseExpr(ts);
    var r := ParseArgList(ts);
    if r.Got? {
      assert e.rest == [e.rest[0]] + e.rest[1..];
      if Peek(e.rest) == Comma {
        ArgListSound(e.rest[1..]);
        assert r.v[1..] == ParseArgList(e.rest[1..]).v;
      }
    }
  }

  // ---------- statements ----------

  /** The token cannot continue a statement that ends in front of it. */
  predicate Ends(t: Token, s: Stmt) {
    Stops(t, 4) && (OpenIf(s) ==> t != KElse)
  }

  lemma {:induction false} CountCaretsPrinted(k: nat, ts: seq<Token>)
    requires Peek(ts) != Caret
    ensures CountCarets(Carets(k) + ts) == k && |Carets(k)| == k && (Carets(k) + ts)[k..] == ts
  {
    if k == 0 {
      assert Carets(0) + ts == ts;
    } else {
      CountCaretsPrinted(k - 1, ts);
      assert (Carets(k) + ts)[1..] == Carets(k - 1) + ts;
    }
  }

  lemma AssignComplete(k: nat, e: Expr, rest: seq<Token>)
    requires Fits(e, 4) && Stops(Peek(rest), 4)
    ensures ParseAssign(PrintAssign(k, e) + rest) == Got(Assigned(k, e), rest)
  {
    hide ParseExpr, Print, Fits, CountCarets;
    var ts := [Token.Assign] + (Print(e) + rest);
    CountCaretsPrinted(k, ts);
    Regroup([], Carets(k), [Token.Assign], Print(e) + rest);
    Regroup(Carets(k), [Token.Assign], Print(e), rest);
    var all := PrintAssign(k, e) + rest;
    assert all == Carets(k) + ts;
    assert all[k + 1..] == ts[1..] == Print(e) + rest;
    ExprComplete(e, rest);
  }

  lemma IfElseStep(ts: seq<Token>, e: Expr, ts1: seq<Token>, t: Stmt, ts2: seq<Token>, f: Stmt, rest: seq<Token>)
    requires ParseExpr(ts) == Got(e, [KThen] + ts1) && ParseStmt(ts1) == Got(t, [KElse] + ts2)
    requires ParseStmt(ts2) == Got(f, rest)
    ensures ParseStmt([KIf] + ts) == Got(IfElse(e, t, f), rest)
  {
    hide ParseExpr, ParseFor, ParseBlock, ParseArgs, ParseAssign;
    assert ([KIf] + ts)[1..] == ts && ([KThen] + ts1)[1..] == ts1 && ([KElse] + ts2)[1..] == ts2;
  }

  lemma IfOnlyStep(ts: seq<Token>, e: Expr, ts1: seq<Token>, t: Stmt, rest: seq<Token>)
    requires ParseExpr(ts) == Got(e, [KThen] + ts1) && ParseStmt(ts1) == Got(t, rest) && Peek(rest) != KElse
    ensures ParseStmt([KIf] + ts) == Got(IfOnly(e, t), rest)
  {
    hide ParseExpr, ParseFor, ParseBlock, ParseArgs, ParseAssign;
    assert ([KIf] + ts)[1..] == ts && ([KThen] + ts1)[1..] == ts1;
  }

  lemma LoopStep(ts: seq<Token>, e: Expr, ts1: seq<Token>, b: Stmt, rest: seq<Token>)
    requires ParseExpr(ts) == Got(e, [KDo] + ts1) && ParseStmt(ts1) == Got(b, rest)
    ensures ParseStmt([KWhile] + ts) == Got(Loop(e, b), rest)
  {
    hide ParseExpr, ParseFor, ParseBlock, ParseArgs, ParseAssign;
    assert ([KWhile] + ts)[1..] == ts && ([KDo] + ts1)[1..] == ts1;
  }

  lemma ForStep(x: Name, ts: seq<Token>, k: nat, from: Expr, ts1: seq<Token>, to: Expr, ts2: seq<Token>, b: Stmt,
                rest: seq<Token>)
    requires x.Id? && ParseAssign(ts) == Got(Assigned(k, from), [KTo] + ts1)
    requires ParseExpr(ts1) == Got(to, [KDo] + ts2) && ParseStmt(ts2) == Got(b, rest)
    ensures ParseStmt([KFor, x] + ts) == Got(ForTo(x, k, from, to, b), rest)
  {
    hide ParseExpr, ParseBlock, ParseArgs, ParseAssign;
    var all := [KFor, x] + ts;
    assert all[1..] == [x] + ts && all[1..][1..] == ts;
    assert ([KTo] + ts1)[1..] == ts1 && ([KDo] + ts2)[1..] == ts2;
    assert ParseStmt(all) == ParseFor(all[1..]);
  }

  lemma ShowStep(ts: seq<Token>, e: Expr, rest: seq<Token>)
    requires ParseExpr(ts) == Got(e, rest)
    ensures ParseStmt([KDisplay] + ts) == Got(Show(e), rest)
  {
    hide ParseExpr, ParseFor, ParseBlock, ParseArgs, ParseAssign;
    assert ([KDisplay] + ts)[1..] == ts;
  }

  lemma CallStmtStep(f: Name, ts: seq<Token>, args: seq<Expr>, rest: seq<Token>)
    requires f.Id? && ParseArgs(ts) == Got(args, rest)
    ensures ParseStmt([f, LParen] + ts) == Got(CallStmt(f, args), rest)
  {
    hide ParseExpr, ParseFor, ParseBlock, ParseArgs, ParseAssign;
    var all := [f, LParen] + ts;
    assert all[1..] == [LParen] + ts && all[2..] == ts;
  }

  lemma AssignStep(x: Name, ts: seq<Token>, k: nat, e: Expr, rest: seq<Token>)
    requires x.Id? && ParseAssign(ts) == Got(Assigned(k, e), rest) && Peek(ts) != LParen
    ensures ParseStmt([x] + ts) == Got(Assignment(x, k, e), rest)
  {
    hide ParseExpr, ParseFor, ParseBlock, ParseArgs, ParseAssign;
    assert ([x] + ts)[1..] == ts;
  }

  lemma BlockStep(ts: seq<Token>)
    ensures Peek(ts) == KEnd ==> ParseStmt([KBegin] + ts) == Got(Block([], false), Advance(ts))
    ensures Peek(ts) != KEnd ==> ParseStmt([KBegin] + ts) == ParseItems(ts)
  {
    hide ParseExpr, ParseFor, ParseItems, ParseArgs, ParseAssign;
    var all := [KBegin] + ts;
    assert all[1..] == ts;
    if Peek(ts) == KEnd {
      assert all[2..] == ts[1..];
    }
    assert ParseStmt(all) == ParseBlock(all);
  }

  lemma CaretsFirst(k: nat, e: Expr, rest: seq<Token>)
    ensures Peek(PrintAssign(k, e) + rest) == if k == 0 then Token.Assign else Caret
  {
    assert k == 0 ==> PrintAssign(k, e) == [Token.Assign] + Print(e);
  }

  /** Every statement that fits parses back to itself; an ELSE goes to the nearest open IF. */
  lemma {:induction false} StmtComplete(s: Stmt, rest: seq<Token>)
    requires FitsStmt(s) && Ends(Peek(rest), s)
    ensures ParseStmt(PrintStmt(s) + rest) == Got(s, rest)
    decreases s, 1
  {
    hide ParseStmt, ParseExpr, Print, Fits, FitsAll, ParseArgs, PrintArgs, ParseAssign, PrintAssign;
    match s
    case Assignment(_, _, _) => SimpleStmtComplete(s, rest);
    case IfElse(e, t, f) => IfElseComplete(e, t, f, rest);
    case IfOnly(e, t) =>
      ExprComplete(e, [KThen] + (PrintStmt(t) + rest));
      StmtComplete(t, rest);
      IfOnlyStep(Print(e) + ([KThen] + (PrintStmt(t) + rest)), e, PrintStmt(t) + rest, t, rest);
      Regroup5([KIf], Print(e), [KThen], PrintStmt(t), rest);
    case Loop(e, b) =>
      ExprComplete(e, [KDo] + (PrintStmt(b) + rest));
      StmtComplete(b, rest);
      LoopStep(Print(e) + ([KDo] + (PrintStmt(b) + rest)), e, PrintStmt(b) + rest, b, rest);
      Regroup5([KWhile], Print(e), [KDo], PrintStmt(b), rest);
    case ForTo(x, k, from, to, b) => ForComplete(x, k, from, to, b, rest);
    case Block(ss, trailing) => BlockComplete(ss, trailing, rest);
    case Show(_) => SimpleStmtComplete(s, rest);
    case CallStmt(_, _) => SimpleStmtComplete(s, rest);
  }

  lemma SimpleStmtComplete(s: Stmt, rest: seq<Token>)
    requires (s.Assignment? || s.Show? || s.CallStmt?) && FitsStmt(s) && Stops(Peek(rest), 4)
    ensures ParseStmt(PrintStmt(s) + rest) == Got(s, rest)
  {
    hide ParseStmt, ParseExpr, Print, Fits, FitsAll, ParseArgs, PrintArgs, ParseAssign, PrintAssign;
    match s
    case Assignment(x, k, e) =>
      AssignComplete(k, e, rest);
      CaretsFirst(k, e, rest);
      AssignStep(x, PrintAssign(k, e) + rest, k, e, rest);
      Regroup2([x], PrintAssign(k, e), rest);
    case Show(e) =>
      ExprComplete(e, rest);
      ShowStep(Print(e) + rest, e, rest);
      Regroup2([KDisplay], Print(e), rest);
    case CallStmt(f, args) =>
      ArgsComplete(args, rest);
      CallStmtStep(f, PrintArgs(args) + rest, args, rest);
      Regroup2([f, LParen], PrintArgs(args), rest);
  }

  lemma {:induction false} IfElseComplete(e: Expr, t: Stmt, f: Stmt, rest: seq<Token>)
    requires FitsStmt(IfElse(e, t, f)) && Ends(Peek(rest), f)
    ensures ParseStmt(PrintStmt(IfElse(e, t, f)) + rest) == Got(IfElse(e, t, f), rest)
    decreases IfElse(e, t, f), 0
  {
    hide ParseStmt, ParseExpr, Print, Fits;
    var ts2 := PrintStmt(f) + rest;
    var ts1 := PrintStmt(t) + ([KElse] + ts2);
    ExprComplete(e, [KThen] + ts1);
    StmtComplete(t, [KElse] + ts2);
    StmtComplete(f, rest);
    IfElseStep(Print(e) + ([KThen] + ts1), e, ts1, t, ts2, f, rest);
    Regroup5([KIf], Print(e), [KThen], PrintStmt(t), [KElse] + ts2);
    Regroup([KIf] + Print(e) + [KThen] + PrintStmt(t), [KElse], PrintStmt(f), rest);
  }

  lemma {:induction false} ForComplete(x: Name, k: nat, from: Expr, to: Expr, b: Stmt, rest: seq<Token>)
    requires FitsStmt(ForTo(x, k, from, to, b)) && Ends(Peek(rest), b)
    ensures ParseStmt(PrintStmt(ForTo(x, k, from, to, b)) + rest) == Got(ForTo(x, k, from, to, b), rest)
    decreases b, 2
  {
    hide ParseStmt, ParseExpr, Print, Fits, ParseAssign, PrintAssign;
    var ts2 := PrintStmt(b) + rest;
    var ts1 := Print(to) + ([KDo] + ts2);
    AssignComplete(k, from, [KTo] + ts1);
    ExprComplete(to, [KDo] + ts2);
    StmtComplete(b, rest);
    ForStep(x, PrintAssign(k, from) + ([KTo] + ts1), k, from, ts1, to, ts2, b, rest);
    Regroup5([KFor, x], PrintAssign(k, from), [KTo], Print(to), [KDo] + ts2);
    Regroup([KFor, x] + PrintAssign(k, from) + [KTo] + Print(to), [KDo], PrintStmt(b), rest);
  }

  lemma {:induction false} BlockComplete(ss: seq<Stmt>, trailing: bool, rest: seq<Token>)
    requires FitsStmt(Block(ss, trailing))
    ensures ParseStmt(PrintStmt(Block(ss, trailing)) + rest) == Got(Block(ss, trailing), rest)
    decreases ss, 3
  {
    hide ParseStmt, ParseItems;
    if ss == [] {
      BlockStep([KEnd] + rest);
      assert PrintStmt(Block(ss, trailing)) + rest == [KBegin] + ([KEnd] + rest);
      assert ([KEnd] + rest)[1..] == rest;
    } else {
      ItemsComplete(ss, trailing, rest);
      FirstOfItems(ss, trailing, rest);
      BlockStep(PrintItems(ss, trailing) + rest);
      assert PrintStmt(Block(ss, trailing)) + rest == [KBegin] + (PrintItems(ss, trailing) + rest);
    }
  }

  lemma FirstOfItems(ss: seq<Stmt>, trailing: bool, rest: seq<Token>)
    requires ss != [] && FitsStmt(ss[0])
    ensures Peek(PrintItems(ss, trailing) + rest) != KEnd
  {
    var t := PrintStmt(ss[0]);
    assert t != [] && t[0] != KEnd;
  }

  lemma ItemStep(ts: seq<Token>, s: Stmt, rest: seq<Token>)
    ensures ParseStmt(ts) == Got(s, [KEnd] + rest) ==> ParseItems(ts) == Got(Block([s], false), rest)
    ensures ParseStmt(ts) == Got(s, [Semicolon, KEnd] + rest) ==> ParseItems(ts) == Got(Block([s], true), rest)
  {
    hide ParseStmt;
    assert ([KEnd] + rest)[1..] == rest;
    var two := [Semicolon, KEnd] + rest;
    assert two[1..] == [KEnd] + rest && two[2..] == rest;
  }

  lemma MoreItemsStep(ts: seq<Token>, s: Stmt, ts': seq<Token>, ss: seq<Stmt>, trailing: bool, rest: seq<Token>)
    requires ParseStmt(ts) == Got(s, [Semicolon] + ts') && Peek(ts') != KEnd
    requires ParseItems(ts') == Got(Block(ss, trailing), rest)
    ensures ParseItems(ts) == Got(Block([s] + ss, trailing), rest)
  {
    hide ParseStmt;
    assert ([Semicolon] + ts')[1..] == ts';
  }

  lemma {:induction false} ItemsComplete(ss: seq<Stmt>, trailing: bool, rest: seq<Token>)
    requires ss != [] && forall i :: 0 <= i < |ss| ==> FitsStmt(ss[i])
    ensures ParseItems(PrintItems(ss, trailing) + rest) == Got(Block(ss, trailing), rest)
    decreases ss, 2
  {
    hide ParseStmt, ParseItems, PrintStmt, FitsStmt;
    var first := PrintStmt(ss[0]);
    if |ss| == 1 {
      var end := if trailing then [Semicolon, KEnd] else [KEnd];
      StmtComplete(ss[0], end + rest);
      ItemStep(first + (end + rest), ss[0], rest);
      assert ss == [ss[0]];
      Regroup2(first, end, rest);
    } else {
      var ts' := PrintItems(ss[1..], trailing) + rest;
      StmtComplete(ss[0], [Semicolon] + ts');
      ItemsComplete(ss[1..], trailing, rest);
      FirstOfItems(ss[1..], trailing, rest);
      MoreItemsStep(first + ([Semicolon] + ts'), ss[0], ts', ss[1..], trailing, rest);
      assert ss == [ss[0]] + ss[1..];
      Regroup(first, [Semicolon], PrintItems(ss[1..], trailing), rest);
    }
  }

  // ---------- soundness of statements ----------

  lemma {:induction false} CountCaretsSound(ts: seq<Token>)
    ensures var k := CountCarets(ts); ts == Carets(k) + ts[k..]
    decreases |ts|
  {
    if Peek(ts) == Caret {
      CountCaretsSound(ts[1..]);
    }
  }

  lemma AssignReads(ts: seq<Token>)
    ensures var r := ParseAssign(ts);
      r.Got? ==> ts == PrintAssign(r.v.carets, r.v.e) + r.rest && Fits(r.v.e, 4)
  {
    hide ParseExpr, Print, Fits, CountCarets;
    var k := CountCarets(ts);
    CountCaretsSound(ts);
    if Peek(ts[k..]) == Token.Assign {
      ExprSound(ts[k + 1..]);
      var r := ParseExpr(ts[k + 1..]);
      assert ts[k..] == [Token.Assign] + ts[k + 1..];
      if r.Got? {
        Regroup([], Carets(k), [Token.Assign], Print(r.v) + r.rest);
        Regroup(Carets(k), [Token.Assign], Print(r.v), r.rest);
      }
    }
  }

  /** What was consumed is the printing of a statement that fits, and an ELSE was not left behind
      for an open IF. */
  ghost predicate ReadsStmt(ts: seq<Token>, r: Parsed<Stmt>) {
    r.Got? ==> ts == PrintStmt(r.v) + r.rest && FitsStmt(r.v) && (OpenIf(r.v) ==> Peek(r.rest) != KElse)
  }

  lemma Split1(ts: seq<Token>)
    requires ts != []
    ensures ts == [ts[0]] + ts[1..]
  {}

  /** Every accepted statement is the printing of a statement tree that fits. */
  lemma {:induction false} StmtSound(ts: seq<Token>)
    ensures ReadsStmt(ts, ParseStmt(ts))
    decreases |ts|, 2
  {
    hide ParseExpr, Print, Fits, FitsAll, ParseArgs, PrintArgs, ParseAssign, PrintAssign, ParseFor, ParseBlock;
    if ParseStmt(ts).Got? {
      Split1(ts);
      match ts[0]
      case KIf => IfSound(ts);
      case KWhile => WhileSound(ts);
      case KFor => ForSound(ts);
      case KBegin => BlockSound(ts);
      case KDisplay => ExprSound(ts[1..]);
      case Id(_) =>
        if Peek(ts[1..]) == LParen {
          CallSound(ts);
        } else {
          AssignReads(ts[1..]);
        }
      case _ =>
    }
  }

  lemma CallSound(ts: seq<Token>)
    requires ts != [] && ts[0].Id? && Peek(ts[1..]) == LParen
    ensures ReadsStmt(ts, ParseStmt(ts))
  {
    hide ParseArgs, PrintArgs, FitsAll;
    ArgsSound(ts[2..]);
    Split1(ts);
    Split1(ts[1..]);
    assert ts[1..][1..] == ts[2..];
    assert [ts[0], LParen] == [ts[0]] + [LParen];
    Regroup2([ts[0]], [LParen], ts[2..]);
    var r := ParseArgs(ts[2..]);
    if r.Got? {
      Regroup2([ts[0], LParen], PrintArgs(r.v), r.rest);
    }
  }

  lemma {:induction false} IfSound(ts: seq<Token>)
    requires ts != [] && ts[0] == KIf
    ensures ReadsStmt(ts, ParseStmt(ts))
    decreases |ts|, 1
  {
    hide ParseExpr, Print, Fits, ParseFor, ParseBlock, ParseArgs, ParseAssign;
    Split1(ts);
    ExprSound(ts[1..]);
    var e := ParseExpr(ts[1..]);
    if e.Got? && Peek(e.rest) == KThen {
      Split1(e.rest);
      StmtSound(e.rest[1..]);
      var t := ParseStmt(e.rest[1..]);
      if t.Got? {
        Regroup5([KIf], Print(e.v), [KThen], PrintStmt(t.v), t.rest);
        if Peek(t.rest) == KElse {
          Split1(t.rest);
          StmtSound(t.rest[1..]);
          var f := ParseStmt(t.rest[1..]);
          if f.Got? {
            Regroup([KIf] + Print(e.v) + [KThen] + PrintStmt(t.v), [KElse], PrintStmt(f.v), f.rest);
          }
        }
      }
    }
  }

  lemma {:induction false} WhileSound(ts: seq<Token>)
    requires ts != [] && ts[0] == KWhile
    ensures ReadsStmt(ts, ParseStmt(ts))
    decreases |ts|, 1
  {
    hide ParseExpr, Print, Fits, ParseFor, ParseBlock, ParseArgs, ParseAssign;
    Split1(ts);
    ExprSound(ts[1..]);
    var e := ParseExpr(ts[1..]);
    if e.Got? && Peek(e.rest) == KDo {
      Split1(e.rest);
      StmtSound(e.rest[1..]);
      var b := ParseStmt(e.rest[1..]);
      if b.Got? {
        Regroup5([KWhile], Print(e.v), [KDo], PrintStmt(b.v), b.rest);
      }
    }
  }

  lemma {:induction false} ForSound(ts: seq<Token>)
    requires ts != [] && ts[0] == KFor
    ensures ReadsStmt(ts, ParseStmt(ts))
    decreases |ts|, 1
  {
    hide ParseExpr, Print, Fits, ParseBlock, ParseArgs, ParseAssign, PrintAssign;
    assert ParseStmt(ts) == ParseFor(ts[1..]);
    if Peek(ts[1..]).Id? {
      var x := ts[1];
      AssignReads(ts[1..][1..]);
      assert ts[1..][1..] == ts[2..] && ts == [KFor, x] + ts[2..];
      var a := ParseAssign(ts[2..]);
      if a.Got? && Peek(a.rest) == KTo {
        Split1(a.rest);
        ExprSound(a.rest[1..]);
        var e := ParseExpr(a.rest[1..]);
        if e.Got? && Peek(e.rest) == KDo {
          Split1(e.rest);
          StmtSound(e.rest[1..]);
          var b := ParseStmt(e.rest[1..]);
          if b.Got? {
            var pa := PrintAssign(a.v.carets, a.v.e);
            Regroup5([KFor, x], pa, [KTo], Print(e.v), [KDo] + (PrintStmt(b.v) + b.rest));
            Regroup([KFor, x] + pa + [KTo] + Print(e.v), [KDo], PrintStmt(b.v), b.rest);
          }
        }
      }
    }
  }

  lemma {:induction false} BlockSound(ts: seq<Token>)
    requires ts != [] && ts[0] == KBegin
    ensures ReadsStmt(ts, ParseStmt(ts))
    decreases |ts|, 1
  {
    hide ParseItems, PrintItems;
    Split1(ts);
    assert ParseStmt(ts) == ParseBlock(ts);
    if Peek(ts[1..]) == KEnd {
      assert ts == [KBegin] + [KEnd] + ts[2..];
    } else {
      ItemsSound(ts[1..]);
      var r := ParseItems(ts[1..]);
      if r.Got? {
        assert ts == [KBegin] + (PrintItems(r.v.stmts, r.v.trailing) + r.rest);
      }
    }
  }

  ghost predicate ReadsItems(ts: seq<Token>, b: Stmt, rest: seq<Token>) {
    && b.Block? && b.stmts != [] && ts == PrintItems(b.stmts, b.trailing) + rest
    && forall i :: 0 <= i < |b.stmts| ==> FitsStmt(b.stmts[i])
  }

  lemma LastItemReads(ts: seq<Token>, s: Stmt, trailing: bool, rest: seq<Token>)
    requires FitsStmt(s) && ts == PrintStmt(s) + ((if trailing then [Semicolon, KEnd] else [KEnd]) + rest)
    ensures ReadsItems(ts, Block([s], trailing), rest)
  {
    hide PrintStmt, FitsStmt;
    Regroup2(PrintStmt(s), if trailing then [Semicolon, KEnd] else [KEnd], rest);
  }

  lemma MoreItemsRead(ts: seq<Token>, s: Stmt, ts': seq<Token>, b: Stmt, rest: seq<Token>)
    requires FitsStmt(s) && ts == PrintStmt(s) + ([Semicolon] + ts') && ReadsItems(ts', b, rest)
    ensures ReadsItems(ts, Block([s] + b.stmts, b.trailing), rest)
  {
    hide PrintStmt, FitsStmt;
    assert ([s] + b.stmts)[1..] == b.stmts;
    Regroup(PrintStmt(s), [Semicolon], PrintItems(b.stmts, b.trailing), rest);
  }

  lemma {:induction false} ItemsSound(ts: seq<Token>)
    ensures var r := ParseItems(ts); r.Got? ==> ReadsItems(ts, r.v, r.rest)
    decreases |ts|, 3
  {
    hide ParseStmt, PrintStmt, FitsStmt, ReadsItems;
    StmtSound(ts);
    var s := ParseStmt(ts);
    var r := ParseItems(ts);
    if r.Got? {
      Split1(s.rest);
      if Peek(s.rest) == KEnd {
        LastItemReads(ts, s.v, false, r.rest);
      } else {
        var more := s.rest[1..];
        Split1(more);
        if Peek(more) == KEnd {
          assert s.rest == [Semicolon, KEnd] + r.rest;
          LastItemReads(ts, s.v, true, r.rest);
        } else {
          ItemsSound(more);
          var b := ParseItems(more);
          MoreItemsRead(ts, s.v, more, b.v, b.rest);
        }
      }
    }
  }
}
