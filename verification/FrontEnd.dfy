/** What the one-pass parser relies on: tables read as scopes, and loops that only make an
    ill-typed tree bigger. */
module FrontEnd {
  import opened Syntax
  import opened Typing
  import opened Machine
  import opened Emission
  import opened Grammar
  import opened TypeTable

  /** A foreign function as declared; VOID for no result. */
  datatype Function = Function(ret: int, params: seq<int>)

  ghost predicate ValidFunction(ts: Types, f: Function) {
    && (f.ret == VOID || ValidId(ts, f.ret))
    && forall i :: 0 <= i < |f.params| ==> IsBuiltin(f.params[i])
  }

  ghost predicate ValidFunctions(ts: Types, fs: map<Name, Function>) {
    forall f :: f in fs ==> ValidFunction(ts, fs[f])
  }

  function BuiltinTypes(ids: seq<int>): (r: seq<Ty>)
    requires forall i :: 0 <= i < |ids| ==> IsBuiltin(ids[i])
    ensures |r| == |ids| && forall i :: 0 <= i < |ids| ==> r[i] == BuiltinOf(ids[i])
  {
    if ids == [] then [] else [BuiltinOf(ids[0])] + BuiltinTypes(ids[1..])
  }

  ghost function SigOf(ts: Types, f: Function): Sig
    requires ValidFunction(ts, f)
  {
    Sig(BuiltinTypes(f.params), if f.ret == VOID then None else Den(ts, f.ret))
  }

  ghost function Sigs(ts: Types, fs: map<Name, Function>): map<Name, Sig>
    requires ValidFunctions(ts, fs)
  {
    map f | f in fs :: SigOf(ts, fs[f])
  }

  ghost predicate ValidTables(ts: Types, vars: map<Name, int>, typedefs: map<Name, int>, fs: map<Name, Function>) {
    ValidTypes(ts) && ValidIds(ts, vars) && ValidIds(ts, typedefs) && ValidFunctions(ts, fs)
  }

  /** The tables with every identifier read as a structure. */
  ghost function ScopeOf(ts: Types, vars: map<Name, int>, typedefs: map<Name, int>, fs: map<Name, Function>): Scope
    requires ValidTables(ts, vars, typedefs, fs)
  {
    Scope(Structures(ts, vars), Structures(ts, typedefs), Sigs(ts, fs))
  }

  lemma SigStable(ts: Types, ts': Types, f: Function)
    requires ValidTypes(ts) && ValidFunction(ts, f) && Extends(ts, ts')
    ensures ValidFunction(ts', f) && SigOf(ts', f) == SigOf(ts, f)
  {
    hide BuiltinTypes, Den;
    if f.ret != VOID {
      DenExtends(ts, ts', f.ret);
    }
  }

  lemma SigsStable(ts: Types, ts': Types, fs: map<Name, Function>)
    requires ValidTypes(ts) && ValidFunctions(ts, fs) && Extends(ts, ts')
    ensures ValidFunctions(ts', fs) && Sigs(ts', fs) == Sigs(ts, fs)
  {
    hide SigOf, ValidFunction, ValidTypes;
    forall f | f in fs ensures ValidFunction(ts', fs[f]) && SigOf(ts', fs[f]) == SigOf(ts, fs[f]) {
      SigStable(ts, ts', fs[f]);
    }
  }

  lemma ScopeStable(ts: Types, ts': Types, vars: map<Name, int>, typedefs: map<Name, int>, fs: map<Name, Function>)
    requires ValidTables(ts, vars, typedefs, fs) && ValidTypes(ts') && Extends(ts, ts')
    ensures ValidTables(ts', vars, typedefs, fs)
    ensures ScopeOf(ts', vars, typedefs, fs) == ScopeOf(ts, vars, typedefs, fs)
  {
    hide Structures, Sigs, ValidTypes, ValidIds, ValidFunctions, Extends;
    StructuresStable(ts, ts', vars);
    StructuresStable(ts, ts', typedefs);
    SigsStable(ts, ts', fs);
  }

  /** How the entries of the tables appear in the scope. */
  lemma ScopeEntries(ts: Types, vars: map<Name, int>, typedefs: map<Name, int>, fs: map<Name, Function>, x: Name)
    requires ValidTables(ts, vars, typedefs, fs)
    ensures var c := ScopeOf(ts, vars, typedefs, fs);
      && (x in c.vars <==> x in vars) && (x in vars ==> Den(ts, vars[x]) == Some(c.vars[x]))
      && (x in c.aliases <==> x in typedefs) && (x in typedefs ==> Den(ts, typedefs[x]) == Some(c.aliases[x]))
      && (x in c.funcs <==> x in fs) && (x in fs ==> c.funcs[x] == SigOf(ts, fs[x]))
  {
    if x in vars {
      DenValid(ts, vars[x]);
    }
    if x in typedefs {
      DenValid(ts, typedefs[x]);
    }
  }

  /** A new entry of a table is a new entry of the scope. */
  lemma NewVariable(ts: Types, vars: map<Name, int>, typedefs: map<Name, int>, fs: map<Name, Function>, x: Name,
                    id: int)
    requires ValidTables(ts, vars, typedefs, fs) && ValidId(ts, id)
    ensures ValidTables(ts, vars[x := id], typedefs, fs) && Den(ts, id).Some?
    ensures var c := ScopeOf(ts, vars, typedefs, fs);
      ScopeOf(ts, vars[x := id], typedefs, fs) == c.(vars := c.vars[x := Den(ts, id).value])
  {
    NewEntry(ts, vars, x, id);
  }

  lemma NewAlias(ts: Types, vars: map<Name, int>, typedefs: map<Name, int>, fs: map<Name, Function>, x: Name, id: int)
    requires ValidTables(ts, vars, typedefs, fs) && ValidId(ts, id)
    ensures ValidTables(ts, vars, typedefs[x := id], fs) && Den(ts, id).Some?
    ensures var c := ScopeOf(ts, vars, typedefs, fs);
      ScopeOf(ts, vars, typedefs[x := id], fs) == c.(aliases := c.aliases[x := Den(ts, id).value])
  {
    NewEntry(ts, typedefs, x, id);
  }

  lemma NewEntry(ts: Types, ids: map<Name, int>, x: Name, id: int)
    requires ValidTypes(ts) && ValidIds(ts, ids) && ValidId(ts, id)
    ensures ValidIds(ts, ids[x := id]) && Den(ts, id).Some?
    ensures Structures(ts, ids[x := id]) == Structures(ts, ids)[x := Den(ts, id).value]
  {
    DenValid(ts, id);
  }

  lemma NewFunction(ts: Types, vars: map<Name, int>, typedefs: map<Name, int>, fs: map<Name, Function>, x: Name,
                    f: Function)
    requires ValidTables(ts, vars, typedefs, fs) && ValidFunction(ts, f)
    ensures ValidTables(ts, vars, typedefs, fs[x := f])
    ensures var c := ScopeOf(ts, vars, typedefs, fs);
      ScopeOf(ts, vars, typedefs, fs[x := f]) == c.(funcs := c.funcs[x := SigOf(ts, f)])
  {
    assert Sigs(ts, fs[x := f]) == Sigs(ts, fs)[x := SigOf(ts, f)];
  }

  /** Structure and identifier kinds agree. */
  lemma DenKinds(ts: Types, id: int)
    requires ValidTypes(ts) && ValidId(ts, id)
    ensures Den(ts, id).Some?
    ensures IsBuiltin(id) <==> !Den(ts, id).value.TPtr?
    ensures IsBuiltin(id) ==> Den(ts, id).value == BuiltinOf(id)
    ensures id in ts.user <==> Den(ts, id).value.TPtr?
    ensures id in ts.user ==>
              && ValidId(ts, ts.user[id].target)
              && Den(ts, ts.user[id].target) == Some(Den(ts, id).value.target)
  {
    DenValid(ts, id);
    if id in ts.user {
      DenValid(ts, ts.user[id].target);
    }
  }

  // ---------- loops over an ill-typed tree ----------

  lemma {:induction false} CaretLoopBad(c: Scope, e: Expr, ts: seq<Token>)
    requires CheckExpr(c, e).None?
    ensures CheckExpr(c, CaretLoop(e, ts).v).None?
    decreases |ts|
  {
    if Peek(ts) == Caret {
      CaretLoopBad(c, Deref(e), ts[1..]);
    }
  }

  lemma {:induction false} TermLoopBad(c: Scope, e: Expr, ts: seq<Token>)
    requires CheckExpr(c, e).None?
    ensures TermLoop(e, ts).Got? ==> CheckExpr(c, TermLoop(e, ts).v).None?
    decreases |ts|
  {
    if IsMulTok(Peek(ts)) {
      var f := ParseFactor(ts[1..]);
      if f.Got? {
        TermLoopBad(c, Bin(ts[0].op, e, f.v), f.rest);
      }
    }
  }

  lemma {:induction false} SimpleLoopBad(c: Scope, e: Expr, ts: seq<Token>)
    requires CheckExpr(c, e).None?
    ensures SimpleLoop(e, ts).Got? ==> CheckExpr(c, SimpleLoop(e, ts).v).None?
    decreases |ts|
  {
    if IsAddTok(Peek(ts)) {
      var f := ParseTerm(ts[1..]);
      if f.Got? {
        SimpleLoopBad(c, Bin(ts[0].op, e, f.v), f.rest);
      }
    }
  }

  // ---------- the trees of the shortest expressions ----------

  lemma RefTree(ts: seq<Token>, c: Scope, tag: nat)
    requires Peek(ts) == At
    ensures !Peek(ts[1..]).Id? ==> ParsePrimary(ts).Fail?
    ensures Peek(ts[1..]).Id? ==>
      var x := ts[1..][0];
      && ParsePrimary(ts) == Got(Ref(x), ts[1..][1..])
      && CheckExpr(c, Ref(x)) == (if x in c.vars then Some(TPtr(c.vars[x])) else None)
      && ExprCode(c, Ref(x), tag) == Frag([LeaVar(x), PushReg(RAX)], tag)
  {
    if Peek(ts[1..]).Id? {
      assert ts[1..][1..] == ts[2..];
    }
  }

  lemma LiteralTree(ts: seq<Token>, c: Scope, tag: nat)
    requires IsLiteral(Peek(ts))
    ensures ParsePrimary(ts) == Got(Lit(ts[0]), ts[1..])
    ensures CheckExpr(c, Lit(ts[0])) == Some(LiteralTy(ts[0]))
    ensures ExprCode(c, Lit(ts[0]), tag) == Frag(LoadImm(LiteralWord(ts[0])), tag)
  {
  }

  lemma ParenTree(ts: seq<Token>, c: Scope, tag: nat)
    requires Peek(ts) == LParen
    ensures var r := ParseExpr(ts[1..]);
      && ParsePrimary(ts) == (if r.Got? && Peek(r.rest) == RParen then Got(Paren(r.v), Advance(r.rest)) else Fail)
      && (r.Got? ==>
            && CheckExpr(c, Paren(r.v)) == CheckExpr(c, r.v)
            && ExprCode(c, Paren(r.v), tag) == ExprCode(c, r.v, tag))
  {
    hide ParseExpr;
  }

  lemma NegateTree(ts: seq<Token>, c: Scope, tag: nat)
    requires Peek(ts) == Bang
    ensures var r := ParseFactor(ts[1..]);
      && ParsePrimary(ts) == (if r.Got? then Got(Negate(r.v), r.rest) else Fail)
      && (r.Got? ==>
            && CheckExpr(c, Negate(r.v)) == (if CheckExpr(c, r.v) == Some(TBool) then Some(TBool) else None)
            && var f := ExprCode(c, r.v, tag); ExprCode(c, Negate(r.v), tag) == Frag(f.code + [NotTop], f.tag))
  {
    hide ParseFactor;
  }

  lemma VarTree(ts: seq<Token>, c: Scope, tag: nat)
    requires Peek(ts).Id? && Peek(ts[1..]) != LParen
    ensures ParsePrimary(ts) == Got(Var(ts[0]), ts[1..])
    ensures ExprCode(c, Var(ts[0]), tag) == Frag([PushVar(ts[0])], tag)
  {}

  /** What a call in an expression needs, apart from its arguments parsing. */
  predicate CallAccepted(c: Scope, f: Name, args: seq<Expr>, expectsReturn: bool) {
    f in c.funcs && Callable(c.funcs[f]) && CheckArgs(c, args, c.funcs[f].params)
    && (expectsReturn ==> c.funcs[f].ret.Some?)
  }

  lemma AcceptedParts(c: Scope, f: Name, args: seq<Expr>, expectsReturn: bool)
    ensures CallAccepted(c, f, args, expectsReturn)
       <==> f in c.funcs && (expectsReturn ==> c.funcs[f].ret.Some?) && CallAccepted(c, f, args, false)
  {
    hide CheckArgs, Callable;
  }

  lemma CallTree(ts: seq<Token>, c: Scope, tag: nat)
    requires Peek(ts).Id? && Peek(ts[1..]) == LParen
    ensures var r := ParseArgs(ts[1..][1..]);
      && ParsePrimary(ts) == (if r.Got? then Got(Call(ts[0], r.v), r.rest) else Fail)
      && (r.Got? ==>
            && CheckExpr(c, Call(ts[0], r.v))
            == (if CallAccepted(c, ts[0], r.v, true) then c.funcs[ts[0]].ret else None)
            && (ts[0] in c.funcs ==>
                  var f := ArgsCode(c, r.v, tag, 0, 0);
                  ExprCode(c, Call(ts[0], r.v), tag) == Frag(f.code + FinishCall(ts[0], c.funcs[ts[0]].ret), f.tag)))
  {
    hide ParseArgs, CheckArgs, ArgsCode;
    assert ts[1..][1..] == ts[2..];
  }

  lemma ConvTree(ts: seq<Token>, c: Scope, tag: nat)
    requires Peek(ts) == KConvert
    ensures var r := ParseExpr(ts[1..]);
      var ty := ParseType(if r.Got? then Advance(r.rest) else []);
      && ParsePrimary(ts) == (if r.Got? && Peek(r.rest) == KTo && ty.Got? then Got(Conv(r.v, ty.v), ty.rest) else Fail)
      && (r.Got? && ty.Got? ==>
            var to := Resolve(c.aliases, ty.v);
            && CheckExpr(c, Conv(r.v, ty.v)) == CheckConv(CheckExpr(c, r.v), to)
            && (CheckExpr(c, r.v).Some? && to.Some? ==>
                  var f := ExprCode(c, r.v, tag);
                  ExprCode(c, Conv(r.v, ty.v), tag) == Frag(f.code + ConvCode(CheckExpr(c, r.v).value, to.value),
                                                            f.tag)))
  {
    hide ParseExpr, ParseType;
  }

  lemma OtherTree(ts: seq<Token>)
    requires var t := Peek(ts); !IsLiteral(t) && !t.Id? && t != LParen && t != Bang && t != At && t != KConvert
    ensures ParsePrimary(ts).Fail?
  {}

  /** One more dereference. */
  lemma DerefTree(e: Expr, c: Scope, tag: nat)
    ensures CheckExpr(c, Deref(e)) ==
      if CheckExpr(c, e).Some? && CheckExpr(c, e).value.TPtr? then Some(CheckExpr(c, e).value.target) else None
    ensures var f := ExprCode(c, e, tag); ExprCode(c, Deref(e), tag) == Frag(f.code + LOAD_POINTED, f.tag)
  {}

  lemma BinTree(op: BinOp, l: Expr, r: Expr, c: Scope, tag: nat)
    ensures CheckExpr(c, Bin(op, l, r)) == CheckBin(op, CheckExpr(c, l), CheckExpr(c, r))
    ensures CheckExpr(c, l).Some? ==>
      var fl := ExprCode(c, l, tag); var fr := ExprCode(c, r, fl.tag);
      ExprCode(c, Bin(op, l, r), tag) == Frag(fl.code + fr.code + BinCode(op, CheckExpr(c, l).value), fr.tag)
  {
    assert OperandsCode(c, Bin(op, l, r), tag).code
        == ExprCode(c, l, tag).code + ExprCode(c, r, ExprCode(c, l, tag).tag).code;
  }

  lemma RelTree(op: RelOp, l: Expr, r: Expr, c: Scope, tag: nat)
    ensures CheckExpr(c, Rel(op, l, r)) == CheckRel(CheckExpr(c, l), CheckExpr(c, r))
    ensures CheckExpr(c, l).Some? ==>
      var fl := ExprCode(c, l, tag); var fr := ExprCode(c, r, fl.tag);
      ExprCode(c, Rel(op, l, r), tag)
        == Frag(fl.code + fr.code + RelCode(op, CheckExpr(c, l).value, fr.tag + 1), fr.tag + 1)
  {
    assert OperandsCode(c, Rel(op, l, r), tag).code
        == ExprCode(c, l, tag).code + ExprCode(c, r, ExprCode(c, l, tag).tag).code;
  }

  // ---------- argument lists from the left ----------

  lemma {:induction false} CheckArgsAll(c: Scope, args: seq<Expr>, ts: seq<Ty>)
    ensures CheckArgs(c, args, ts)
       <==> |args| == |ts| && forall i :: 0 <= i < |ts| ==> CheckExpr(c, args[i]) == Some(ts[i])
    decreases |args|
  {
    if args != [] && ts != [] {
      CheckArgsAll(c, args[1..], ts[1..]);
      if |args| == |ts| && forall i :: 0 <= i < |ts| ==> CheckExpr(c, args[i]) == Some(ts[i]) {
        assert forall i :: 0 <= i < |ts[1..]| ==> args[1..][i] == args[i + 1] && ts[1..][i] == ts[i + 1];
      }
      if CheckArgs(c, args, ts) {
        forall i | 0 <= i < |ts| ensures CheckExpr(c, args[i]) == Some(ts[i]) {
          if i > 0 {
            assert args[1..][i - 1] == args[i] && ts[1..][i - 1] == ts[i];
          }
        }
      }
    }
  }

  lemma {:induction false} CountsAppend(a: seq<Ty>, b: seq<Ty>)
    ensures RegularCount(a + b) == RegularCount(a) + RegularCount(b)
    ensures FloatCount(a + b) == FloatCount(a) + FloatCount(b)
    decreases |a|
  {
    if a == [] {
      assert a + b == b;
    } else {
      CountsAppend(a[1..], b);
      assert (a + b)[1..] == a[1..] + b;
    }
  }

  /** Counting the parameters up to and including the i-th. */
  lemma CountsNext(ts: seq<Ty>, i: nat)
    requires i < |ts|
    ensures RegularCount(ts[..i + 1]) == RegularCount(ts[..i]) + (if ts[i].TDouble? then 0 else 1) <= RegularCount(ts)
    ensures FloatCount(ts[..i + 1]) == FloatCount(ts[..i]) + (if ts[i].TDouble? then 1 else 0) <= FloatCount(ts)
  {
    assert ts[..i + 1] == ts[..i] + [ts[i]];
    CountsAppend(ts[..i], [ts[i]]);
    assert ts == ts[..i + 1] + ts[i + 1..];
    CountsAppend(ts[..i + 1], ts[i + 1..]);
  }

  lemma Reassociate(a: seq<Instr>, b: seq<Instr>, f: seq<Instr>, g: seq<Instr>, p: seq<Instr>)
    ensures a + b + (f + g + p) == a + b + f + g + p
  {}

  /** Argument code grows to the right by one argument. */
  lemma {:induction false} ArgsCodeSnoc(c: Scope, args: seq<Expr>, e: Expr, ts: seq<Ty>, t: Ty, tag: nat, ri: nat,
                                        fi: nat)
    requires |args| == |ts| && (forall i :: 0 <= i < |ts| ==> CheckExpr(c, args[i]) == Some(ts[i]))
    requires CheckExpr(c, e) == Some(t)
    ensures var f := ArgsCode(c, args, tag, ri, fi);
      var g := ExprCode(c, e, f.tag);
      ArgsCode(c, args + [e], tag, ri, fi)
        == Frag(f.code + g.code + PopArg(t, ri + RegularCount(ts), fi + FloatCount(ts)), g.tag)
    decreases |args|
  {
    hide PopArg, ExprCode, CheckExpr, ArgsCode;
    if args == [] {
      assert args + [e] == [e] && [e][1..] == [];
      var g := ExprCode(c, e, tag);
      ArgsCodeCons(c, [e], t, tag, ri, fi);
      ArgsCodeCons(c, [e], t, g.tag, if t.TDouble? then ri else ri + 1, if t.TDouble? then fi + 1 else fi);
      assert g.code + PopArg(t, ri, fi) + [] == [] + g.code + PopArg(t, ri, fi);
    } else {
      var fa := ExprCode(c, args[0], tag);
      var ri', fi' := if ts[0].TDouble? then ri else ri + 1, if ts[0].TDouble? then fi + 1 else fi;
      assert (args + [e])[0] == args[0] && (args + [e])[1..] == args[1..] + [e];
      ArgsCodeCons(c, args, ts[0], tag, ri, fi);
      ArgsCodeCons(c, args + [e], ts[0], tag, ri, fi);
      ArgsCodeSnoc(c, args[1..], e, ts[1..], t, fa.tag, ri', fi');
      var f := ArgsCode(c, args[1..], fa.tag, ri', fi');
      Reassociate(fa.code, PopArg(ts[0], ri, fi), f.code, ExprCode(c, e, f.tag).code,
                  PopArg(t, ri + RegularCount(ts), fi + FloatCount(ts)));
    }
  }

  /** The arguments already parsed, put in front of the rest. */
  function Prepend(done: seq<Expr>, r: Parsed<seq<Expr>>): Parsed<seq<Expr>> {
    match r
    case Got(es, rest) => Got(done + es, rest)
    case Fail => Fail
  }

  lemma PrependNone(r: Parsed<seq<Expr>>)
    ensures Prepend([], r) == r
  {
    assert r.Got? ==> [] + r.v == r.v;
  }

  /** One round of the argument loop. */
  lemma ArgListRound(ts: seq<Token>, done: seq<Expr>)
    ensures var r := ParseExpr(ts);
      && (r.Fail? ==> ParseArgList(ts).Fail?)
      && (r.Got? && Peek(r.rest) == Comma ==>
            Prepend(done, ParseArgList(ts)) == Prepend(done + [r.v], ParseArgList(r.rest[1..])))
      && (r.Got? && Peek(r.rest) != Comma ==>
            ParseArgList(ts) == if Peek(r.rest) == RParen then Got([r.v], r.rest[1..]) else Fail)
      && (r.Got? && ParseArgList(ts).Got? ==> ParseArgList(ts).v != [] && ParseArgList(ts).v[0] == r.v)
  {
    hide ParseExpr;
    var r := ParseExpr(ts);
    if r.Got? && Peek(r.rest) == Comma {
      var q := ParseArgList(r.rest[1..]);
      if q.Got? {
        assert done + ([r.v] + q.v) == done + [r.v] + q.v;
      }
    }
  }

  /** The next argument is one too many, does not parse, has another type, or has no register
      left: then the whole call is not accepted. */
  lemma BadArgument(c: Scope, f: Name, ts: seq<Token>, done: seq<Expr>, expectsReturn: bool)
    requires f in c.funcs
    requires var ps := c.funcs[f].params; var r := ParseExpr(ts); var i := |done|;
      i >= |ps| || !(r.Got? && CheckExpr(c, r.v) == Some(ps[i]))
      || (if ps[i].TDouble? then FloatCount(ps[..i]) >= 8 else RegularCount(ps[..i]) >= 6)
    ensures var q := Prepend(done, ParseArgList(ts)); q.Got? ==> !CallAccepted(c, f, q.v, expectsReturn)
  {
    hide ParseExpr, CheckExpr;
    var ps := c.funcs[f].params;
    var q := Prepend(done, ParseArgList(ts));
    var i := |done|;
    ArgListRound(ts, done);
    if q.Got? {
      CheckArgsAll(c, q.v, ps);
      assert q.v[i] == ParseExpr(ts).v;
      if i < |ps| {
        CountsNext(ps, i);
      }
    }
  }

  lemma GoodArgument(c: Scope, done: seq<Expr>, e: Expr, ps: seq<Ty>, tag: nat)
    requires |done| < |ps| && (forall i :: 0 <= i < |done| ==> CheckExpr(c, done[i]) == Some(ps[i]))
    requires CheckExpr(c, e) == Some(ps[|done|])
    ensures var i := |done|;
      var f := ArgsCode(c, done, tag, 0, 0);
      var g := ExprCode(c, e, f.tag);
      ArgsCode(c, done + [e], tag, 0, 0)
        == Frag(f.code + g.code + PopArg(ps[i], RegularCount(ps[..i]), FloatCount(ps[..i])), g.tag)
    ensures forall i :: 0 <= i < |done + [e]| ==> CheckExpr(c, (done + [e])[i]) == Some(ps[i])
  {
    hide ExprCode, CheckExpr, PopArg, ArgsCode;
    ArgsCodeSnoc(c, done, e, ps[..|done|], ps[|done|], tag, 0, 0);
  }
}
