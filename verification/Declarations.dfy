/** Declaration blocks: their grammar, their printing, and what they add to the symbol tables. */
module Declarations {
  import opened Syntax
  import opened Typing
  import opened Grammar

  type Files = map<string, seq<Token>>

  /** `a, b : T;` */
  datatype Group = Group(names: seq<Name>, te: TypeExpr)

  /** A slot of a foreign parameter list that is empty counts for nothing: None. */
  datatype Decl =
    | DVar(groups: seq<Group>)
    | DType(alias: Name, te: TypeExpr)
    | DForeign(f: Name, params: seq<Option<Builtin>>, ret: Option<TypeExpr>)
    | DInclude(path: string)

  // ---------- grammar ----------

  /** One or more names; every token can be one. */
  function ParseNames(ts: seq<Token>): (r: Parsed<seq<Name>>)
    ensures r.Got? ==> |r.rest| < |ts|
    decreases |ts|
  {
    if ts == [] then Fail
    else if Peek(ts[1..]) != Comma then Got([ts[0]], ts[1..])
    else
      match ParseNames(ts[1..][1..])
      case Got(xs, rest) => Got([ts[0]] + xs, rest)
      case Fail => Fail
  }

  function ParseGroup(ts: seq<Token>): (r: Parsed<Group>)
    ensures r.Got? ==> |r.rest| < |ts|
  {
    match ParseNames(ts)
    case Fail => Fail
    case Got(xs, r1) =>
      if Peek(r1) != Colon then Fail else
      match ParseType(r1[1..])
      case Fail => Fail
      case Got(te, r2) => if Peek(r2) == Semicolon then Got(Group(xs, te), r2[1..]) else Fail
  }

  /** One or more groups: another one follows wherever the next token is an identifier. */
  function ParseGroups(ts: seq<Token>): (r: Parsed<seq<Group>>)
    ensures r.Got? ==> |r.rest| < |ts|
    decreases |ts|
  {
    match ParseGroup(ts)
    case Fail => Fail
    case Got(g, rest) =>
      if !Peek(rest).Id? then Got([g], rest)
      else
        match ParseGroups(rest)
        case Got(gs, rest') => Got([g] + gs, rest')
        case Fail => Fail
  }

  function ParseParamList(ts: seq<Token>): (r: Parsed<seq<Option<Builtin>>>)
    ensures r.Got? ==> |r.rest| < |ts|
    decreases |ts|
  {
    var typed := Peek(ts).TypeName?;
    var p := if typed then Some(ts[0].builtin) else None;
    var rest := if typed then ts[1..] else ts;
    if Peek(rest) == Comma then
      (match ParseParamList(rest[1..])
       case Got(ps, rest') => Got([p] + ps, rest')
       case Fail => Fail)
    else if Peek(rest) == RParen then Got([p], rest[1..])
    else Fail
  }

  /** The parameters of a foreign function, from behind `(` to behind `)`. */
  function ParseParams(ts: seq<Token>): (r: Parsed<seq<Option<Builtin>>>)
    ensures r.Got? ==> |r.rest| < |ts|
  {
    if Peek(ts) == RParen then Got([], ts[1..]) else ParseParamList(ts)
  }

  function ParseReturn(ts: seq<Token>): (r: Parsed<Option<TypeExpr>>)
    ensures r.Got? ==> |r.rest| < |ts|
  {
    if Peek(ts) == KVoid then Got(None, ts[1..])
    else
      match ParseType(ts)
      case Got(te, rest) => Got(Some(te), rest)
      case Fail => Fail
  }

  /** A foreign function, from behind FFI. */
  function ParseForeign(ts: seq<Token>): (r: Parsed<Decl>)
    ensures r.Got? ==> |r.rest| < |ts|
  {
    if !(Peek(ts).Id? && Peek(ts[1..]) == LParen) then Fail else
    match ParseParams(ts[1..][1..])
    case Fail => Fail
    case Got(ps, r1) =>
      if Peek(r1) != Colon then Fail else
      match ParseReturn(r1[1..])
      case Fail => Fail
      case Got(ret, r2) => if Peek(r2) == Semicolon then Got(DForeign(ts[0], ps, ret), r2[1..]) else Fail
  }

  /** An alias, from behind TYPE. */
  function ParseAlias(ts: seq<Token>): (r: Parsed<Decl>)
    ensures r.Got? ==> |r.rest| < |ts|
  {
    if !(Peek(ts).Id? && Peek(ts[1..]) == Equal) then Fail else
    match ParseType(ts[1..][1..])
    case Fail => Fail
    case Got(te, r1) => if Peek(r1) == Semicolon then Got(DType(ts[0], te), r1[1..]) else Fail
  }

  predicate StartsDecl(t: Token) {
    t == KVar || t == KType || t == KFfi || t == KInclude
  }

  function ParseDecl(ts: seq<Token>): (r: Parsed<Decl>)
    ensures r.Got? ==> |r.rest| < |ts|
  {
    match Peek(ts)
    case KVar =>
      (match ParseGroups(ts[1..])
       case Got(gs, rest) => Got(DVar(gs), rest)
       case Fail => Fail)
    case KType => ParseAlias(ts[1..])
    case KFfi => ParseForeign(ts[1..])
    case KInclude =>
      if Peek(ts[1..]).StringConst? && Peek(ts[1..][1..]) == Semicolon
      then Got(DInclude(ts[1..][0].path), ts[1..][1..][1..])
      else Fail
    case _ => Fail
  }

  function ParseDecls(ts: seq<Token>): (r: Parsed<seq<Decl>>)
    ensures r.Got? ==> |r.rest| <= |ts|
    decreases |ts|
  {
    if !StartsDecl(Peek(ts)) then Got([], ts)
    else
      match ParseDecl(ts)
      case Fail => Fail
      case Got(d, rest) =>
        match ParseDecls(rest)
        case Got(ds, rest') => Got([d] + ds, rest')
        case Fail => Fail
  }

  // ---------- printing ----------

  function PrintNames(xs: seq<Name>): seq<Token> {
    if xs == [] then [] else if |xs| == 1 then [xs[0]] else [xs[0], Comma] + PrintNames(xs[1..])
  }

  function PrintGroup(g: Group): seq<Token> {
    PrintNames(g.names) + [Colon] + PrintType(g.te) + [Semicolon]
  }

  function PrintGroups(gs: seq<Group>): seq<Token> {
    if gs == [] then [] else PrintGroup(gs[0]) + PrintGroups(gs[1..])
  }

  function PrintParam(p: Option<Builtin>): seq<Token> {
    if p.Some? then [TypeName(p.value)] else []
  }

  /** The parameters with the closing parenthesis. */
  function PrintParams(ps: seq<Option<Builtin>>): seq<Token> {
    if ps == [] then [RParen]
    else if |ps| == 1 then PrintParam(ps[0]) + [RParen]
    else PrintParam(ps[0]) + [Comma] + PrintParams(ps[1..])
  }

  function PrintReturn(ret: Option<TypeExpr>): seq<Token> {
    if ret.None? then [KVoid] else PrintType(ret.value)
  }

  function PrintDecl(d: Decl): seq<Token> {
    match d
    case DVar(gs) => [KVar] + PrintGroups(gs)
    case DType(a, te) => [KType, a, Equal] + PrintType(te) + [Semicolon]
    case DForeign(f, ps, ret) => [KFfi, f, LParen] + PrintParams(ps) + [Colon] + PrintReturn(ret) + [Semicolon]
    case DInclude(path) => [KInclude, StringConst(path), Semicolon]
  }

  function PrintDecls(ds: seq<Decl>): seq<Token> {
    if ds == [] then [] else PrintDecl(ds[0]) + PrintDecls(ds[1..])
  }

  predicate FitsGroup(g: Group) {
    g.names != [] && PlainType(g.te)
  }

  /** The first name of a later group must be an identifier, or the block would have ended. */
  predicate FitsGroups(gs: seq<Group>) {
    && gs != []
    && (forall i :: 0 <= i < |gs| ==> FitsGroup(gs[i]))
    && (forall i :: 0 < i < |gs| ==> gs[i].names[0].Id?)
  }

  predicate FitsDecl(d: Decl) {
    match d
    case DVar(gs) => FitsGroups(gs)
    case DType(a, te) => a.Id? && PlainType(te)
    case DForeign(f, ps, ret) => f.Id? && ps != [None] && (ret.Some? ==> PlainType(ret.value))
    case DInclude(_) => true
  }

  predicate FitsDecls(ds: seq<Decl>) {
    forall i :: 0 <= i < |ds| ==> FitsDecl(ds[i])
  }

  // ---------- meaning ----------

  const EMPTY_SCOPE := Scope(map[], map[], map[])

  /** The symbol tables and the paths included so far. */
  datatype Tables = Tables(scope: Scope, includes: set<string>)

  function DeclareVars(c: Scope, xs: seq<Name>, t: Ty): Option<Scope>
    decreases |xs|
  {
    if xs == [] then Some(c)
    else if xs[0] in c.vars then None
    else DeclareVars(c.(vars := c.vars[xs[0] := t]), xs[1..], t)
  }

  function DeclareGroup(c: Scope, g: Group): Option<Scope> {
    var t := Resolve(c.aliases, g.te);
    if t.None? then None else DeclareVars(c, g.names, t.value)
  }

  function DeclareGroups(c: Scope, gs: seq<Group>): Option<Scope>
    decreases |gs|
  {
    if gs == [] then Some(c)
    else
      match DeclareGroup(c, gs[0])
      case Some(c') => DeclareGroups(c', gs[1..])
      case None => None
  }

  function ParamTypes(ps: seq<Option<Builtin>>): seq<Ty> {
    if ps == [] then []
    else if ps[0].Some? then [BuiltinTy(ps[0].value)] + ParamTypes(ps[1..])
    else ParamTypes(ps[1..])
  }

  /** None for a return type that does not resolve. */
  function ResolveReturn(c: Scope, ret: Option<TypeExpr>): Option<Option<Ty>> {
    if ret.None? then Some(None)
    else if Resolve(c.aliases, ret.value).None? then None
    else Some(Resolve(c.aliases, ret.value))
  }

  /** A declaration that is no INCLUDE. */
  function DeclarePlain(c: Scope, d: Decl): Option<Scope>
    requires !d.DInclude?
  {
    match d
    case DVar(gs) => DeclareGroups(c, gs)
    case DType(a, te) =>
      var t := Resolve(c.aliases, te);
      if t.None? || a in c.aliases then None else Some(c.(aliases := c.aliases[a := t.value]))
    case DForeign(f, ps, ret) =>
      var r := ResolveReturn(c, ret);
      if r.None? || f in c.funcs then None else Some(c.(funcs := c.funcs[f := Sig(ParamTypes(ps), r.value)]))
  }

  /** A path is entered before its file is read, so a file that includes itself stops there. */
  function DeclareOne(files: Files, d: Decl, t: Tables): (r: Option<Tables>)
    ensures r.Some? ==> t.includes <= r.value.includes
    decreases files.Keys - t.includes, d, 0
  {
    if d.DInclude? then
      if d.path in t.includes then Some(t)
      else if d.path !in files then None
      else
        match ParseDecls(files[d.path])
        case Fail => None
        case Got(ds, rest) =>
          if Peek(rest) != EndOfFile then None
          else Declare(files, ds, t.(includes := t.includes + {d.path}))
    else
      match DeclarePlain(t.scope, d)
      case Some(c) => Some(t.(scope := c))
      case None => None
  }

  function Declare(files: Files, ds: seq<Decl>, t: Tables): (r: Option<Tables>)
    ensures r.Some? ==> t.includes <= r.value.includes
    decreases files.Keys - t.includes, ds, 1
  {
    if ds == [] then Some(t)
    else
      match DeclareOne(files, ds[0], t)
      case Some(t') => Declare(files, ds[1..], t')
      case None => None
  }

  /** A declaration block at the head of a token sequence: the tables after it and what is left. */
  function DeclareBlock(files: Files, ts: seq<Token>, t: Tables): Option<(Tables, seq<Token>)> {
    match ParseDecls(ts)
    case Fail => None
    case Got(ds, rest) =>
      match Declare(files, ds, t)
      case Some(t') => Some((t', rest))
      case None => None
  }

  // ---------- programs ----------

  /** A program the front end accepts: its tables and its main block. */
  datatype Program = Program(scope: Scope, body: Stmt)

  function ParseProgram(files: Files, ts: seq<Token>, t: Tables): Option<Program> {
    match DeclareBlock(files, ts, t)
    case None => None
    case Some((t', r1)) =>
      match ParseBlock(r1)
      case Fail => None
      case Got(b, r2) =>
        if CheckStmt(t'.scope, b) && Peek(r2) == Dot && Peek(Advance(r2)) == EndOfFile
        then Some(Program(t'.scope, b))
        else None
  }

  // ---------- step by step ----------

  /** One declaration: the tables after it and what is left. */
  function DeclareNext(files: Files, ts: seq<Token>, t: Tables): Option<(Tables, seq<Token>)> {
    match ParseDecl(ts)
    case Fail => None
    case Got(d, rest) =>
      match DeclareOne(files, d, t)
      case Some(t') => Some((t', rest))
      case None => None
  }

  /** One round of the loop over declarations. */
  lemma {:induction false} DeclareBlockStep(files: Files, ts: seq<Token>, t: Tables)
    ensures StartsDecl(Peek(ts)) ==>
      (DeclareBlock(files, ts, t) ==
        match DeclareNext(files, ts, t)
        case None => None
        case Some((t', rest)) => DeclareBlock(files, rest, t'))
    ensures !StartsDecl(Peek(ts)) ==> DeclareBlock(files, ts, t) == Some((t, ts))
  {
    hide ParseDecl, DeclareOne;
    var d := ParseDecl(ts);
    if StartsDecl(Peek(ts)) && d.Got? && ParseDecls(d.rest).Got? {
      var ds := ParseDecls(d.rest).v;
      assert ([d.v] + ds)[1..] == ds;
    }
  }

  /** A group at the head of a token sequence. */
  function DeclareGroupAt(c: Scope, ts: seq<Token>): Option<(Scope, seq<Token>)> {
    match ParseGroup(ts)
    case Fail => None
    case Got(g, rest) =>
      match DeclareGroup(c, g)
      case Some(c') => Some((c', rest))
      case None => None
  }

  lemma {:induction false} GroupParts(c: Scope, ts: seq<Token>)
    ensures var n := ParseNames(ts);
      && (!(n.Got? && Peek(n.rest) == Colon) ==> DeclareGroupAt(c, ts).None?)
      && (n.Got? && Peek(n.rest) == Colon ==>
            var te := ParseType(n.rest[1..]);
            DeclareGroupAt(c, ts) ==
              if te.Fail? || Resolve(c.aliases, te.v).None? || Peek(te.rest) != Semicolon then None
              else match DeclareVars(c, n.v, Resolve(c.aliases, te.v).value)
                   case None => None
                   case Some(c') => Some((c', te.rest[1..])))
  {
    hide ParseNames, ParseType, Resolve, DeclareVars;
  }

  lemma GroupShorter(c: Scope, ts: seq<Token>)
    ensures DeclareGroupAt(c, ts).Some? ==> |DeclareGroupAt(c, ts).value.1| < |ts|
  {}

  /** The groups of a VAR block at the head of a token sequence. */
  function DeclareGroupsAt(c: Scope, ts: seq<Token>): Option<(Scope, seq<Token>)> {
    match ParseGroups(ts)
    case Fail => None
    case Got(gs, rest) =>
      match DeclareGroups(c, gs)
      case Some(c') => Some((c', rest))
      case None => None
  }

  lemma {:induction false} DeclareGroupsCons(c: Scope, g: Group, gs: seq<Group>)
    ensures DeclareGroups(c, [g] + gs)
         == match DeclareGroup(c, g) { case None => None case Some(c') => DeclareGroups(c', gs) }
  {
    hide DeclareGroup;
    assert ([g] + gs)[1..] == gs;
  }

  lemma {:induction false} DeclareGroupsStep(c: Scope, ts: seq<Token>)
    ensures DeclareGroupsAt(c, ts) ==
      match DeclareGroupAt(c, ts)
      case None => None
      case Some((c', rest)) => if Peek(rest).Id? then DeclareGroupsAt(c', rest) else Some((c', rest))
  {
    hide ParseGroup, DeclareGroup;
    var g := ParseGroup(ts);
    if g.Got? {
      if !Peek(g.rest).Id? {
        assert [g.v] + [] == [g.v];
        DeclareGroupsCons(c, g.v, []);
      } else if ParseGroups(g.rest).Got? {
        DeclareGroupsCons(c, g.v, ParseGroups(g.rest).v);
      }
    }
  }

  lemma {:induction false} DeclareVarNext(files: Files, ts: seq<Token>, t: Tables)
    requires Peek(ts) == KVar
    ensures DeclareNext(files, ts, t) ==
      match DeclareGroupsAt(t.scope, ts[1..]) { case None => None case Some((c, rest)) => Some((t.(scope := c), rest)) }
  {
    hide ParseGroups, DeclareGroups;
  }

  lemma AliasNext(files: Files, ts: seq<Token>, t: Tables)
    requires Peek(ts) == KType
    ensures var a := ts[1..];
      && (!(Peek(a).Id? && Peek(a[1..]) == Equal) ==> DeclareNext(files, ts, t).None?)
      && (Peek(a).Id? && Peek(a[1..]) == Equal ==>
            var te := ParseType(a[1..][1..]);
            var ty := if te.Got? then Resolve(t.scope.aliases, te.v) else None;
            DeclareNext(files, ts, t) ==
              if ty.None? || Peek(te.rest) != Semicolon || a[0] in t.scope.aliases then None
              else Some((t.(scope := t.scope.(aliases := t.scope.aliases[a[0] := ty.value])), te.rest[1..])))
  {
    hide ParseType, Resolve;
  }

  /** The signature of a foreign function, from behind `(` to behind `;`. */
  function SignatureAt(c: Scope, ts: seq<Token>): Option<(Sig, seq<Token>)> {
    match ParseParams(ts)
    case Fail => None
    case Got(ps, r1) =>
      if Peek(r1) != Colon then None else
      match ParseReturn(r1[1..])
      case Fail => None
      case Got(ret, r2) =>
        var t := ResolveReturn(c, ret);
        if t.None? || Peek(r2) != Semicolon then None else Some((Sig(ParamTypes(ps), t.value), r2[1..]))
  }

  lemma ForeignNext(files: Files, ts: seq<Token>, t: Tables)
    requires Peek(ts) == KFfi
    ensures var a := ts[1..];
      && (!(Peek(a).Id? && Peek(a[1..]) == LParen) ==> DeclareNext(files, ts, t).None?)
      && (Peek(a).Id? && Peek(a[1..]) == LParen ==>
            var s := SignatureAt(t.scope, a[1..][1..]);
            DeclareNext(files, ts, t) ==
              if s.None? || a[0] in t.scope.funcs then None
              else Some((t.(scope := t.scope.(funcs := t.scope.funcs[a[0] := s.value.0])), s.value.1)))
  {
    hide ParseParams, ParseReturn, ResolveReturn, ParamTypes;
  }

  lemma Assoc<T>(a: seq<T>, b: seq<T>, c: seq<T>)
    ensures a + (b + c) == a + b + c
  {}

  /** Foreign parameters already read, in front of the rest. */
  function PrependParams(done: seq<Option<Builtin>>, r: Parsed<seq<Option<Builtin>>>): Parsed<seq<Option<Builtin>>> {
    match r
    case Got(ps, rest) => Got(done + ps, rest)
    case Fail => Fail
  }

  /** One round of the loop over foreign parameters. */
  lemma ParamRound(done: seq<Option<Builtin>>, ts: seq<Token>)
    ensures var typed := Peek(ts).TypeName?;
      var p := if typed then Some(ts[0].builtin) else None;
      var rest := if typed then ts[1..] else ts;
      PrependParams(done, ParseParamList(ts)) ==
        if Peek(rest) == Comma then PrependParams(done + [p], ParseParamList(rest[1..]))
        else if Peek(rest) == RParen then Got(done + [p], rest[1..])
        else Fail
  {
    var typed := Peek(ts).TypeName?;
    var p := if typed then Some(ts[0].builtin) else None;
    var rest := if typed then ts[1..] else ts;
    if Peek(rest) == Comma && ParseParamList(rest[1..]).Got? {
      Assoc(done, [p], ParseParamList(rest[1..]).v);
    }
  }

  lemma {:induction false} ParamTypesAppend(a: seq<Option<Builtin>>, p: Option<Builtin>)
    ensures ParamTypes(a + [p]) == ParamTypes(a) + (if p.Some? then [BuiltinTy(p.value)] else [])
    decreases |a|
  {
    if a == [] {
      assert a + [p] == [p] && [p][1..] == [];
    } else {
      ParamTypesAppend(a[1..], p);
      assert (a + [p])[1..] == a[1..] + [p];
    }
  }

  /** The names already read, in front of the rest. */
  function PrependNames(done: seq<Name>, r: Parsed<seq<Name>>): Parsed<seq<Name>> {
    match r
    case Got(xs, rest) => Got(done + xs, rest)
    case Fail => Fail
  }

  lemma NameRound(done: seq<Name>, ts: seq<Token>)
    ensures PrependNames(done, ParseNames(ts)) ==
      if ts == [] then Fail
      else if Peek(ts[1..]) == Comma then PrependNames(done + [ts[0]], ParseNames(ts[1..][1..]))
      else Got(done + [ts[0]], ts[1..])
  {
    if ts != [] && Peek(ts[1..]) == Comma && ParseNames(ts[1..][1..]).Got? {
      Assoc(done, [ts[0]], ParseNames(ts[1..][1..]).v);
    }
  }

  lemma PrependNothing(ts: seq<Token>)
    ensures PrependNames([], ParseNames(ts)) == ParseNames(ts)
    ensures PrependParams([], ParseParamList(ts)) == ParseParamList(ts)
  {
    hide ParseNames, ParseParamList;
    assert ParseNames(ts).Got? ==> [] + ParseNames(ts).v == ParseNames(ts).v;
    assert ParseParamList(ts).Got? ==> [] + ParseParamList(ts).v == ParseParamList(ts).v;
  }
}
