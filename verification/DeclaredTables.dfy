/** What a declaration enters into the symbol tables, entry by entry: each statement is about the tokens of
    one declaration and the tables before and after it. */
module DeclaredTables {
  import opened Syntax
  import opened Typing
  import opened Grammar
  import opened Declarations
  import opened Splicing

  // ---------- VAR ----------

  /** The names of a group are new and pairwise different. */
  ghost predicate GoodNames(c: Scope, xs: seq<Name>) {
    && (forall x :: x in xs ==> x !in c.vars)
    && (forall i, j :: 0 <= i < j < |xs| ==> xs[i] != xs[j])
  }

  /** The variables of before, and each of the names with the type. */
  ghost predicate EntersNames(c: Scope, xs: seq<Name>, t: Ty, c': Scope) {
    && c'.aliases == c.aliases && c'.funcs == c.funcs
    && (forall x :: x in c'.vars <==> x in c.vars || x in xs)
    && (forall x :: x in c.vars ==> x in c'.vars && c'.vars[x] == c.vars[x])
    && (forall x :: x in xs ==> x in c'.vars && c'.vars[x] == t)
  }

  lemma GoodNamesCons(c: Scope, xs: seq<Name>, t: Ty)
    requires xs != [] && xs[0] !in c.vars
    ensures GoodNames(c, xs) <==> GoodNames(c.(vars := c.vars[xs[0] := t]), xs[1..])
  {
    var ys := xs[1..];
    assert forall i :: 0 < i < |xs| ==> xs[i] == ys[i - 1];
    var c1 := c.(vars := c.vars[xs[0] := t]);
    if GoodNames(c, xs) {
      forall y | y in ys ensures y !in c1.vars {
        var i :| 0 <= i < |ys| && ys[i] == y;
        assert xs[i + 1] != xs[0];
      }
      forall i, j | 0 <= i < j < |ys| ensures ys[i] != ys[j] {
        assert xs[i + 1] != xs[j + 1];
      }
    }
    if GoodNames(c1, ys) {
      forall x | x in xs ensures x !in c.vars {
        var i :| 0 <= i < |xs| && xs[i] == x;
        assert i > 0 ==> ys[i - 1] in ys;
      }
      forall i, j | 0 <= i < j < |xs| ensures xs[i] != xs[j] {
        assert ys[j - 1] in ys && ys[j - 1] !in c1.vars;
        assert i > 0 ==> ys[i - 1] != ys[j - 1];
      }
    }
  }

  lemma EntersNamesCons(c: Scope, xs: seq<Name>, t: Ty, c': Scope)
    requires xs != [] && GoodNames(c, xs) && EntersNames(c.(vars := c.vars[xs[0] := t]), xs[1..], t, c')
    ensures EntersNames(c, xs, t, c')
  {
    assert xs == [xs[0]] + xs[1..];
    forall x ensures x in xs <==> x == xs[0] || x in xs[1..] {}
  }

  lemma {:induction false} NamesEntered(c: Scope, xs: seq<Name>, t: Ty)
    ensures DeclareVars(c, xs, t).Some? <==> GoodNames(c, xs)
    ensures DeclareVars(c, xs, t).Some? ==> EntersNames(c, xs, t, DeclareVars(c, xs, t).value)
    decreases |xs|
  {
    hide GoodNames, EntersNames;
    if xs == [] {
      NoNames(c, t);
    } else if xs[0] in c.vars {
      TakenFirst(c, xs);
    } else {
      GoodNamesCons(c, xs, t);
      NamesEntered(c.(vars := c.vars[xs[0] := t]), xs[1..], t);
      if DeclareVars(c, xs, t).Some? {
        EntersNamesCons(c, xs, t, DeclareVars(c, xs, t).value);
      }
    }
  }

  lemma NoNames(c: Scope, t: Ty)
    ensures GoodNames(c, []) && EntersNames(c, [], t, c)
  {}

  lemma TakenFirst(c: Scope, xs: seq<Name>)
    requires xs != [] && xs[0] in c.vars
    ensures !GoodNames(c, xs)
  {}

  /** Every type of the block resolves, and its names are new and pairwise different. */
  ghost predicate GoodGroups(c: Scope, gs: seq<Group>) {
    && (forall i :: 0 <= i < |gs| ==> Resolve(c.aliases, gs[i].te).Some?)
    && (forall i, x :: 0 <= i < |gs| && x in gs[i].names ==> x !in c.vars)
    && (forall i, j, k :: 0 <= i < |gs| && 0 <= j < k < |gs[i].names| ==> gs[i].names[j] != gs[i].names[k])
    && (forall i, k, x :: 0 <= i < k < |gs| && x in gs[i].names ==> x !in gs[k].names)
  }

  /** The variables of before, and each name of the block with the type of its own group. */
  ghost predicate EntersGroups(c: Scope, gs: seq<Group>, c': Scope) {
    && c'.aliases == c.aliases && c'.funcs == c.funcs
    && (forall x :: x in c'.vars ==> x in c.vars || exists i :: 0 <= i < |gs| && x in gs[i].names)
    && (forall x :: x in c.vars ==> x in c'.vars && c'.vars[x] == c.vars[x])
    && (forall i, x :: 0 <= i < |gs| && x in gs[i].names ==>
          x in c'.vars && Resolve(c.aliases, gs[i].te) == Some(c'.vars[x]))
  }

  lemma GroupEntered(c: Scope, g: Group)
    ensures var r := DeclareGroup(c, g); var t := Resolve(c.aliases, g.te);
      && (r.Some? <==> t.Some? && GoodNames(c, g.names))
      && (r.Some? ==> EntersNames(c, g.names, t.value, r.value))
  {
    hide DeclareVars, Resolve, GoodNames, EntersNames;
    var t := Resolve(c.aliases, g.te);
    if t.Some? {
      NamesEntered(c, g.names, t.value);
    }
  }

  /** Good groups are a good first one and good others behind it. */
  lemma GoodCons(c: Scope, gs: seq<Group>, c1: Scope)
    requires gs != [] && DeclareGroup(c, gs[0]) == Some(c1)
    ensures GoodGroups(c, gs) <==> GoodGroups(c1, gs[1..])
  {
    hide DeclareGroup, Resolve;
    GroupEntered(c, gs[0]);
    var hs := gs[1..];
    assert forall i :: 0 < i < |gs| ==> gs[i] == hs[i - 1];
    if GoodGroups(c1, hs) {
      forall i, x | 0 <= i < |gs| && x in gs[i].names ensures x !in c.vars {
        assert i > 0 ==> x in hs[i - 1].names;
      }
      forall i, k, x | 0 <= i < k < |gs| && x in gs[i].names ensures x !in gs[k].names {
        assert hs[k - 1] == gs[k] && (i > 0 ==> hs[i - 1] == gs[i]);
      }
    }
    if GoodGroups(c, gs) {
      forall i, x | 0 <= i < |hs| && x in hs[i].names ensures x !in c1.vars {
        assert x in gs[i + 1].names;
      }
      forall i, j, k | 0 <= i < |hs| && 0 <= j < k < |hs[i].names| ensures hs[i].names[j] != hs[i].names[k] {
        assert gs[i + 1].names[j] != gs[i + 1].names[k];
      }
      forall i, k, x | 0 <= i < k < |hs| && x in hs[i].names ensures x !in hs[k].names {
        assert x in gs[i + 1].names && x !in gs[k + 1].names;
      }
      forall i | 0 <= i < |hs| ensures Resolve(c1.aliases, hs[i].te).Some? {
        assert Resolve(c.aliases, gs[i + 1].te).Some?;
      }
    }
  }

  lemma EntersCons(c: Scope, gs: seq<Group>, c1: Scope, c2: Scope)
    requires gs != [] && DeclareGroup(c, gs[0]) == Some(c1) && EntersGroups(c1, gs[1..], c2)
    ensures EntersGroups(c, gs, c2)
  {
    hide DeclareGroup, Resolve;
    GroupEntered(c, gs[0]);
    var hs := gs[1..];
    assert forall i :: 0 < i < |gs| ==> gs[i] == hs[i - 1];
    forall x | x in c2.vars ensures x in c.vars || exists i :: 0 <= i < |gs| && x in gs[i].names {
      if x !in c.vars && x !in gs[0].names {
        var i :| 0 <= i < |hs| && x in hs[i].names;
        assert x in gs[i + 1].names;
      }
    }
    forall i, x | 0 <= i < |gs| && x in gs[i].names
      ensures x in c2.vars && Resolve(c.aliases, gs[i].te) == Some(c2.vars[x])
    {
      if i > 0 {
        assert x in hs[i - 1].names;
      }
    }
  }

  lemma {:induction false} GroupsEntered(c: Scope, gs: seq<Group>)
    ensures DeclareGroups(c, gs).Some? <==> GoodGroups(c, gs)
    ensures DeclareGroups(c, gs).Some? ==> EntersGroups(c, gs, DeclareGroups(c, gs).value)
    decreases |gs|
  {
    hide DeclareGroup, GoodGroups, EntersGroups;
    if gs == [] {
      NoGroups(c);
    } else {
      var r := DeclareGroup(c, gs[0]);
      if r.Some? {
        GroupsEntered(r.value, gs[1..]);
        GoodCons(c, gs, r.value);
        if DeclareGroups(c, gs).Some? {
          EntersCons(c, gs, r.value, DeclareGroups(c, gs).value);
        }
      } else {
        BadFirst(c, gs);
      }
    }
  }

  lemma NoGroups(c: Scope)
    ensures GoodGroups(c, []) && EntersGroups(c, [], c)
  {}

  lemma BadFirst(c: Scope, gs: seq<Group>)
    requires gs != [] && DeclareGroup(c, gs[0]).None?
    ensures !GoodGroups(c, gs)
  {
    hide DeclareGroup, Resolve;
    GroupEntered(c, gs[0]);
  }

  /** The tokens of a VAR block are accepted iff every type resolves, no name is declared already and no two
      names of the block are the same; the tables after it hold the variables of before and each name of the
      block with the type of its own group, and nothing else. */
  lemma VarEnters(files: Files, gs: seq<Group>, rest: seq<Token>, t: Tables)
    requires FitsGroups(gs) && !Peek(rest).Id?
    ensures var r := DeclareNext(files, [KVar] + PrintGroups(gs) + rest, t);
      && (r.Some? <==> GoodGroups(t.scope, gs))
      && (r.Some? ==>
            EntersGroups(t.scope, gs, r.value.0.scope) && r.value.0.includes == t.includes && r.value.1 == rest)
  {
    hide ParseDecl, PrintGroups, DeclareGroups, GoodGroups, EntersGroups, FitsGroups;
    DeclComplete(DVar(gs), rest);
    GroupsEntered(t.scope, gs);
  }

  /** A name that is declared twice, in one VAR block or in two, is an error. */
  lemma NoSecondVariable(files: Files, gs: seq<Group>, rest: seq<Token>, t: Tables, i: nat, x: Name)
    requires FitsGroups(gs) && !Peek(rest).Id? && i < |gs| && x in gs[i].names
    requires x in t.scope.vars || exists k :: i < k < |gs| && x in gs[k].names
    ensures DeclareNext(files, [KVar] + PrintGroups(gs) + rest, t).None?
  {
    hide DeclareNext, PrintGroups, FitsGroups, EntersGroups, Resolve;
    VarEnters(files, gs, rest, t);
  }

  // ---------- TYPE ----------

  /** The tokens of a TYPE declaration are accepted iff its type resolves and its name is no alias yet; one
      alias is added and nothing else changes. */
  lemma TypeEnters(files: Files, a: Name, te: TypeExpr, rest: seq<Token>, t: Tables)
    requires a.Id? && PlainType(te)
    ensures var r := DeclareNext(files, [KType, a, Equal] + PrintType(te) + [Semicolon] + rest, t);
      && (r.Some? <==> Resolve(t.scope.aliases, te).Some? && a !in t.scope.aliases)
      && (r.Some? ==>
            && r.value.1 == rest && r.value.0.includes == t.includes
            && r.value.0.scope.vars == t.scope.vars && r.value.0.scope.funcs == t.scope.funcs
            && r.value.0.scope.aliases.Keys == t.scope.aliases.Keys + {a}
            && (forall x :: x in t.scope.aliases ==> r.value.0.scope.aliases[x] == t.scope.aliases[x])
            && Some(r.value.0.scope.aliases[a]) == Resolve(t.scope.aliases, te))
  {
    hide ParseDecl, PrintType, Resolve, PlainType;
    DeclComplete(DType(a, te), rest);
  }

  // ---------- FFI ----------

  /** The slots of a foreign parameter list that hold a type name. */
  ghost function TypedBefore(ps: seq<Option<Builtin>>, n: nat): set<nat>
    requires n <= |ps|
  {
    set i: nat | i < n && ps[i].Some?
  }

  /** The parameter types of a signature are those of the slots with a type name, in their order. */
  ghost predicate HasParams(ps: seq<Option<Builtin>>, ts: seq<Ty>) {
    && |ts| == |TypedBefore(ps, |ps|)|
    && forall i {:trigger ps[i]} :: 0 <= i < |ps| && ps[i].Some? ==>
         && |TypedBefore(ps, i)| < |ts|
         && (ps[i].value, ts[|TypedBefore(ps, i)|])
              in {(BInteger, TInt), (BDouble, TDouble), (BBoolean, TBool), (BChar, TChar)}
  }

  lemma TypedNext(ps: seq<Option<Builtin>>, n: nat)
    requires n < |ps|
    ensures |TypedBefore(ps, n + 1)| == |TypedBefore(ps, n)| + (if ps[n].Some? then 1 else 0)
  {
    assert TypedBefore(ps, n + 1) == if ps[n].Some? then TypedBefore(ps, n) + {n} else TypedBefore(ps, n);
  }

  lemma TypedPrefix(ps: seq<Option<Builtin>>, n: nat, i: nat)
    requires i <= n <= |ps|
    ensures TypedBefore(ps[..n], i) == TypedBefore(ps, i)
  {}

  lemma ParamNext(ps: seq<Option<Builtin>>, n: nat, ts: seq<Ty>)
    requires n + 1 == |ps| && HasParams(ps[..n], ts)
    ensures HasParams(ps, ts + (if ps[n].Some? then [BuiltinTy(ps[n].value)] else []))
  {
    hide TypedBefore;
    TypedNext(ps, n);
    TypedPrefix(ps, n, n);
    forall i | 0 <= i < n ensures ps[..n][i] == ps[i] && TypedBefore(ps[..n], i) == TypedBefore(ps, i) {
      TypedPrefix(ps, n, i);
    }
  }

  lemma {:induction false} ParamsEntered(ps: seq<Option<Builtin>>)
    ensures HasParams(ps, ParamTypes(ps))
    decreases |ps|
  {
    hide ParamTypes, HasParams;
    if ps == [] {
      EmptyParams();
    } else {
      var n := |ps| - 1;
      ParamsEntered(ps[..n]);
      ParamNext(ps, n, ParamTypes(ps[..n]));
      ParamTypesAppend(ps[..n], ps[n]);
      assert ps == ps[..n] + [ps[n]];
    }
  }

  lemma EmptyParams()
    ensures HasParams([], ParamTypes([]))
  {}

  /** The tables with one more function. */
  ghost predicate EntersFunction(c: Scope, f: Name, ps: seq<Option<Builtin>>, ret: Option<Ty>, c': Scope) {
    && c'.vars == c.vars && c'.aliases == c.aliases && c'.funcs.Keys == c.funcs.Keys + {f}
    && (forall g :: g in c.funcs && g != f ==> c'.funcs[g] == c.funcs[g])
    && HasParams(ps, c'.funcs[f].params) && c'.funcs[f].ret == ret
  }

  /** The tokens of a foreign function with VOID behind the colon are accepted iff no function has the name; it
      is entered without a result. */
  lemma VoidEnters(files: Files, f: Name, ps: seq<Option<Builtin>>, rest: seq<Token>, t: Tables)
    requires f.Id? && ps != [None]
    ensures var ts := [KFfi, f, LParen] + PrintParams(ps) + [Colon] + [KVoid] + [Semicolon] + rest;
      var r := DeclareNext(files, ts, t);
      && (r.Some? <==> f !in t.scope.funcs)
      && (r.Some? ==>
            && EntersFunction(t.scope, f, ps, None, r.value.0.scope)
            && r.value.0.includes == t.includes && r.value.1 == rest)
  {
    hide ParseDecl, PrintParams, ParamTypes, HasParams;
    DeclComplete(DForeign(f, ps, None), rest);
    ParamsEntered(ps);
  }

  /** With a type behind the colon they are accepted iff moreover the type resolves; the function is entered
      with exactly that type as its result. */
  lemma FunctionEnters(files: Files, f: Name, ps: seq<Option<Builtin>>, te: TypeExpr, rest: seq<Token>, t: Tables)
    requires f.Id? && ps != [None] && PlainType(te)
    ensures var ts := [KFfi, f, LParen] + PrintParams(ps) + [Colon] + PrintType(te) + [Semicolon] + rest;
      var r := DeclareNext(files, ts, t);
      && (r.Some? <==> f !in t.scope.funcs && Resolve(t.scope.aliases, te).Some?)
      && (r.Some? ==>
            && EntersFunction(t.scope, f, ps, Resolve(t.scope.aliases, te), r.value.0.scope)
            && r.value.0.includes == t.includes && r.value.1 == rest)
  {
    hide ParseDecl, PrintParams, ParamTypes, HasParams, PrintType, PlainType, Resolve;
    DeclComplete(DForeign(f, ps, Some(te)), rest);
    ParamsEntered(ps);
  }

  /** So a call of a VOID function is no expression, and never a value to assign. */
  lemma VoidHasNoValue(files: Files, f: Name, ps: seq<Option<Builtin>>, rest: seq<Token>, t: Tables, args: seq<Expr>,
                       x: Name, k: nat)
    requires f.Id? && ps != [None] && f !in t.scope.funcs
    ensures var ts := [KFfi, f, LParen] + PrintParams(ps) + [Colon] + [KVoid] + [Semicolon] + rest;
      var r := DeclareNext(files, ts, t);
      && r.Some? && CheckExpr(r.value.0.scope, Call(f, args)).None?
      && !CheckStmt(r.value.0.scope, Assignment(x, k, Call(f, args)))
  {
    hide DeclareNext, PrintParams, HasParams, CheckArgs, Callable;
    VoidEnters(files, f, ps, rest, t);
  }

  // ---------- INCLUDE ----------

  /** The tokens of an INCLUDE change nothing if its path was included before; otherwise they are accepted iff
      the file exists and is a declaration block up to its end, and declare what it does. */
  lemma IncludeEnters(files: Files, path: string, rest: seq<Token>, t: Tables)
    ensures var r := DeclareNext(files, [KInclude, StringConst(path), Semicolon] + rest, t);
      && (path in t.includes ==> r == Some((t, rest)))
      && (path !in t.includes && path !in files ==> r.None?)
      && (path !in t.includes && path in files ==>
            var q := DeclareBlock(files, files[path], Tables(t.scope, t.includes + {path}));
            && (r.Some? <==> q.Some? && Peek(q.value.1) == EndOfFile)
            && (r.Some? ==> r == Some((q.value.0, rest))))
  {
    hide ParseDecl, ParseDecls, Declare;
    DeclComplete(DInclude(path), rest);
  }
}
