/** Declarations print and parse back; and INCLUDE is the splicing of token sequences. */
module Splicing {
  import opened Syntax
  import opened Typing
  import opened Grammar
  import opened RoundTrip
  import opened Declarations

  // ---------- printing then parsing ----------

  lemma {:induction false} NamesComplete(xs: seq<Name>, rest: seq<Token>)
    requires xs != [] && Peek(rest) != Comma
    ensures ParseNames(PrintNames(xs) + rest) == Got(xs, rest)
    decreases |xs|
  {
    var ts := PrintNames(xs) + rest;
    if |xs| == 1 {
      assert ts[1..] == rest && xs == [xs[0]];
    } else {
      NamesComplete(xs[1..], rest);
      assert ts[1..][1..] == PrintNames(xs[1..]) + rest;
      assert ts[1..][0] == Comma;
      assert [xs[0]] + xs[1..] == xs;
    }
  }

  lemma GroupComplete(g: Group, rest: seq<Token>)
    requires FitsGroup(g)
    ensures ParseGroup(PrintGroup(g) + rest) == Got(g, rest)
  {
    hide ParseNames, PrintNames, ParseType, PrintType;
    var r2 := [Semicolon] + rest;
    var r1 := [Colon] + (PrintType(g.te) + r2);
    NamesComplete(g.names, r1);
    TypeComplete(g.te, r2);
    Regroup5(PrintNames(g.names), [Colon], PrintType(g.te), [Semicolon], rest);
    assert r1[1..] == PrintType(g.te) + r2 && r2[1..] == rest;
  }

  lemma {:induction false} GroupsComplete(gs: seq<Group>, rest: seq<Token>)
    requires FitsGroups(gs) && !Peek(rest).Id?
    ensures ParseGroups(PrintGroups(gs) + rest) == Got(gs, rest)
    decreases |gs|
  {
    hide ParseGroup, PrintGroup, FitsGroup;
    var more := PrintGroups(gs[1..]) + rest;
    assert PrintGroups(gs) + rest == PrintGroup(gs[0]) + more by {
      Regroup2(PrintGroup(gs[0]), PrintGroups(gs[1..]), rest);
    }
    GroupComplete(gs[0], more);
    if |gs| == 1 {
      assert more == rest && gs == [gs[0]];
    } else {
      GroupsComplete(gs[1..], rest);
      GroupStarts(gs[1], PrintGroups(gs[1..][1..]) + rest);
      Regroup2(PrintGroup(gs[1]), PrintGroups(gs[1..][1..]), rest);
      assert gs == [gs[0]] + gs[1..];
    }
  }

  lemma GroupStarts(g: Group, rest: seq<Token>)
    requires FitsGroup(g)
    ensures Peek(PrintGroup(g) + rest) == g.names[0]
  {}

  lemma {:induction false} ParamStep(p: Option<Builtin>, rest: seq<Token>)
    requires !Peek(rest).TypeName?
    ensures ParseParamList(PrintParam(p) + rest) ==
      if Peek(rest) == Comma then
        (match ParseParamList(rest[1..])
         case Got(ps, rest') => Got([p] + ps, rest')
         case Fail => Fail)
      else if Peek(rest) == RParen then Got([p], rest[1..])
      else Fail
  {
    var ts := PrintParam(p) + rest;
    assert (if Peek(ts).TypeName? then ts[1..] else ts) == rest;
  }

  lemma {:induction false} ParamsComplete(ps: seq<Option<Builtin>>, rest: seq<Token>)
    requires ps != []
    ensures ParseParamList(PrintParams(ps) + rest) == Got(ps, rest)
    decreases |ps|
  {
    hide ParseParamList, PrintParam;
    if |ps| == 1 {
      ParamStep(ps[0], [RParen] + rest);
      Regroup2(PrintParam(ps[0]), [RParen], rest);
      assert ([RParen] + rest)[1..] == rest && ps == [ps[0]];
    } else {
      ParamsComplete(ps[1..], rest);
      var more := PrintParams(ps[1..]) + rest;
      ParamStep(ps[0], [Comma] + more);
      Regroup(PrintParam(ps[0]), [Comma], PrintParams(ps[1..]), rest);
      assert ([Comma] + more)[1..] == more && ps == [ps[0]] + ps[1..];
    }
  }

  lemma {:induction false} ParamListStart(ps: seq<Option<Builtin>>, rest: seq<Token>)
    requires ps != [] && ps != [None]
    ensures Peek(PrintParams(ps) + rest) != RParen
  {}

  lemma ForeignStep(f: Name, ts: seq<Token>, ps: seq<Option<Builtin>>, ts': seq<Token>, ret: Option<TypeExpr>,
                    rest: seq<Token>)
    requires f.Id? && ParseParams(ts) == Got(ps, [Colon] + ts') && ParseReturn(ts') == Got(ret, [Semicolon] + rest)
    ensures ParseForeign([f, LParen] + ts) == Got(DForeign(f, ps, ret), rest)
  {
    hide ParseParams, ParseReturn;
    var all := [f, LParen] + ts;
    assert all[1..] == [LParen] + ts && all[1..][1..] == ts;
    assert ([Colon] + ts')[1..] == ts' && ([Semicolon] + rest)[1..] == rest;
  }

  lemma ForeignComplete(f: Name, ps: seq<Option<Builtin>>, ret: Option<TypeExpr>, rest: seq<Token>)
    requires FitsDecl(DForeign(f, ps, ret))
    ensures ParseForeign([f, LParen] + (PrintParams(ps) + ([Colon] + (PrintReturn(ret) + ([Semicolon] + rest)))))
         == Got(DForeign(f, ps, ret), rest)
  {
    hide ParseParamList, PrintParams, ParseReturn, PrintReturn, ParseForeign, PlainType;
    var r2 := [Semicolon] + rest;
    var r1 := [Colon] + (PrintReturn(ret) + r2);
    NoParams();
    if ps != [] {
      ParamsComplete(ps, r1);
      ParamListStart(ps, r1);
    } else {
      assert ([RParen] + r1)[1..] == r1;
    }
    ReturnComplete(ret, r2);
    ForeignStep(f, PrintParams(ps) + r1, ps, PrintReturn(ret) + r2, ret, rest);
  }

  lemma NoParams()
    ensures PrintParams([]) == [RParen]
  {}

  lemma ReturnComplete(ret: Option<TypeExpr>, rest: seq<Token>)
    requires ret.Some? ==> PlainType(ret.value)
    ensures ParseReturn(PrintReturn(ret) + rest) == Got(ret, rest)
  {
    if ret.Some? {
      TypeComplete(ret.value, rest);
      match ret.value
      case Named(_) =>
      case Alias(_) =>
      case PointerTo(_) =>
    } else {
      assert ([KVoid] + rest)[1..] == rest;
    }
  }

  lemma {:induction false} KeywordStep(ts: seq<Token>)
    ensures ParseDecl([KVar] + ts)
         == (match ParseGroups(ts) case Got(gs, rest) => Got(DVar(gs), rest) case Fail => Fail)
    ensures ParseDecl([KType] + ts) == ParseAlias(ts) && ParseDecl([KFfi] + ts) == ParseForeign(ts)
  {
    hide ParseGroups, ParseAlias, ParseForeign;
    assert ([KVar] + ts)[1..] == ts && ([KType] + ts)[1..] == ts && ([KFfi] + ts)[1..] == ts;
  }

  lemma AliasStep(a: Name, ts: seq<Token>, te: TypeExpr, rest: seq<Token>)
    requires a.Id? && ParseType(ts) == Got(te, [Semicolon] + rest)
    ensures ParseAlias([a, Equal] + ts) == Got(DType(a, te), rest)
  {
    hide ParseType;
    var all := [a, Equal] + ts;
    assert all[1..] == [Equal] + ts && all[1..][1..] == ts && ([Semicolon] + rest)[1..] == rest;
  }

  lemma IncludeStep(path: string, rest: seq<Token>)
    ensures ParseDecl([KInclude, StringConst(path), Semicolon] + rest) == Got(DInclude(path), rest)
  {
    var ts := [KInclude, StringConst(path), Semicolon] + rest;
    assert ts[1..] == [StringConst(path), Semicolon] + rest;
    assert ts[1..][1..] == [Semicolon] + rest;
    assert ts[1..][1..][1..] == rest;
  }

  lemma DeclComplete(d: Decl, rest: seq<Token>)
    requires FitsDecl(d) && (d.DVar? ==> !Peek(rest).Id?)
    ensures ParseDecl(PrintDecl(d) + rest) == Got(d, rest)
  {
    hide ParseDecl, ParseGroups, PrintGroups, ParseType, PrintType, ParseForeign, ParseAlias, PrintParams,
      PrintReturn, FitsGroups, PlainType;
    match d
    case DVar(gs) =>
      GroupsComplete(gs, rest);
      KeywordStep(PrintGroups(gs) + rest);
      Regroup2([KVar], PrintGroups(gs), rest);
    case DType(a, te) =>
      TypeComplete(te, [Semicolon] + rest);
      AliasStep(a, PrintType(te) + ([Semicolon] + rest), te, rest);
      KeywordStep([a, Equal] + (PrintType(te) + ([Semicolon] + rest)));
      Regroup5([KType], [a, Equal], PrintType(te), [Semicolon], rest);
      assert [KType, a, Equal] == [KType] + [a, Equal];
    case DForeign(f, ps, ret) =>
      ForeignComplete(f, ps, ret, rest);
      KeywordStep([f, LParen] + (PrintParams(ps) + ([Colon] + (PrintReturn(ret) + ([Semicolon] + rest)))));
      ForeignPrinted(f, ps, ret, rest);
    case DInclude(path) => IncludeStep(path, rest);
  }

  lemma ForeignPrinted(f: Name, ps: seq<Option<Builtin>>, ret: Option<TypeExpr>, rest: seq<Token>)
    ensures PrintDecl(DForeign(f, ps, ret)) + rest
         == [KFfi] + ([f, LParen] + (PrintParams(ps) + ([Colon] + (PrintReturn(ret) + ([Semicolon] + rest)))))
  {
    hide PrintParams, PrintReturn;
    Regroup5([KFfi, f, LParen], PrintParams(ps), [Colon], PrintReturn(ret), [Semicolon] + rest);
    Regroup2([KFfi, f, LParen] + PrintParams(ps) + [Colon] + PrintReturn(ret), [Semicolon], rest);
    Regroup2([KFfi], [f, LParen], PrintParams(ps) + ([Colon] + (PrintReturn(ret) + ([Semicolon] + rest))));
    assert [KFfi, f, LParen] == [KFfi] + [f, LParen];
  }

  predicate EndsInVar(ds: seq<Decl>) {
    ds != [] && ds[|ds| - 1].DVar?
  }

  /** Where a declaration block can end: a last VAR takes in any identifier behind it. */
  predicate CanEnd(ds: seq<Decl>, t: Token) {
    !StartsDecl(t) && (EndsInVar(ds) ==> !t.Id?)
  }

  lemma DeclStarts(d: Decl)
    ensures PrintDecl(d) != [] && StartsDecl(PrintDecl(d)[0])
  {
    hide PrintGroups, PrintParams, PrintType, PrintReturn;
  }

  lemma FirstOfDecls(ds: seq<Decl>, rest: seq<Token>)
    ensures ds != [] ==> StartsDecl(Peek(PrintDecls(ds) + rest))
    ensures ds == [] ==> PrintDecls(ds) + rest == rest
  {
    hide PrintDecl;
    if ds != [] {
      DeclStarts(ds[0]);
    }
  }

  lemma {:induction false} DeclsComplete(ds: seq<Decl>, rest: seq<Token>)
    requires FitsDecls(ds) && CanEnd(ds, Peek(rest))
    ensures ParseDecls(PrintDecls(ds) + rest) == Got(ds, rest)
    decreases |ds|
  {
    hide ParseDecl, PrintDecl, FitsDecl;
    FirstOfDecls(ds, rest);
    if ds != [] {
      var more := PrintDecls(ds[1..]) + rest;
      FirstOfDecls(ds[1..], rest);
      DeclComplete(ds[0], more);
      DeclsComplete(ds[1..], rest);
      Regroup2(PrintDecl(ds[0]), PrintDecls(ds[1..]), rest);
      assert ds == [ds[0]] + ds[1..];
    }
  }

  // ---------- parsing then printing ----------

  lemma {:induction false} NamesSound(ts: seq<Token>)
    requires ParseNames(ts).Got?
    ensures var r := ParseNames(ts); r.v != [] && ts == PrintNames(r.v) + r.rest && r.v[0] == Peek(ts)
    decreases |ts|
  {
    if Peek(ts[1..]) == Comma {
      NamesSound(ts[1..][1..]);
      var q := ParseNames(ts[1..][1..]);
      assert ts == [ts[0], Comma] + ts[1..][1..];
      assert ([ts[0]] + q.v)[1..] == q.v;
    }
  }

  lemma GroupSound(ts: seq<Token>)
    requires ParseGroup(ts).Got?
    ensures var r := ParseGroup(ts); ts == PrintGroup(r.v) + r.rest && FitsGroup(r.v) && r.v.names[0] == Peek(ts)
  {
    hide ParseNames, PrintNames, ParseType, PrintType;
    NamesSound(ts);
    var n := ParseNames(ts);
    TypeSound(n.rest[1..]);
    var t := ParseType(n.rest[1..]);
    assert n.rest == [Colon] + n.rest[1..] && t.rest == [Semicolon] + t.rest[1..];
    Regroup5(PrintNames(n.v), [Colon], PrintType(t.v), [Semicolon], t.rest[1..]);
  }

  lemma {:induction false} GroupsSound(ts: seq<Token>)
    requires ParseGroups(ts).Got?
    ensures var r := ParseGroups(ts);
      ts == PrintGroups(r.v) + r.rest && FitsGroups(r.v) && !Peek(r.rest).Id? && r.v[0].names[0] == Peek(ts)
    decreases |ts|
  {
    hide ParseGroup, PrintGroup, FitsGroup;
    GroupSound(ts);
    var g := ParseGroup(ts);
    FitsNames(g.v);
    if Peek(g.rest).Id? {
      GroupsSound(g.rest);
      var q := ParseGroups(g.rest);
      assert ([g.v] + q.v)[1..] == q.v;
      Regroup2(PrintGroup(g.v), PrintGroups(q.v), q.rest);
      forall i | 0 < i < |[g.v] + q.v| ensures ([g.v] + q.v)[i].names != [] && ([g.v] + q.v)[i].names[0].Id? {
        assert ([g.v] + q.v)[i] == q.v[i - 1];
        FitsNames(q.v[i - 1]);
      }
    } else {
      assert PrintGroups([g.v]) == PrintGroup(g.v) + PrintGroups([]);
      assert PrintGroup(g.v) + [] == PrintGroup(g.v);
    }
  }

  lemma FitsNames(g: Group)
    ensures FitsGroup(g) ==> g.names != []
  {}

  /** A parameter list opens with a parameter, printed, and a separator. */
  lemma ParamReads(ts: seq<Token>) returns (p: Option<Builtin>, rest: seq<Token>)
    requires ParseParamList(ts).Got?
    ensures ts == PrintParam(p) + rest && rest != [] && !Peek(rest).TypeName?
    ensures Peek(rest) == Comma || Peek(rest) == RParen
  {
    var typed := Peek(ts).TypeName?;
    p := if typed then Some(ts[0].builtin) else None;
    rest := if typed then ts[1..] else ts;
  }

  lemma {:induction false} ParamsSound(ts: seq<Token>)
    requires ParseParamList(ts).Got?
    ensures var r := ParseParamList(ts); r.v != [] && ts == PrintParams(r.v) + r.rest
    ensures Peek(ts) != RParen ==> ParseParamList(ts).v != [None]
    decreases |ts|
  {
    var p, rest := ParamReads(ts);
    hide ParseParamList;
    ParamStep(p, rest);
    assert rest == [rest[0]] + rest[1..];
    if Peek(rest) == Comma {
      ParamsSound(rest[1..]);
      var q := ParseParamList(rest[1..]);
      assert ([p] + q.v)[1..] == q.v;
      Regroup(PrintParam(p), [Comma], PrintParams(q.v), q.rest);
    } else {
      Regroup2(PrintParam(p), [RParen], rest[1..]);
      assert PrintParam(None) + rest == rest;
    }
  }

  lemma ReturnSound(ts: seq<Token>)
    requires ParseReturn(ts).Got?
    ensures var r := ParseReturn(ts); ts == PrintReturn(r.v) + r.rest && (r.v.Some? ==> PlainType(r.v.value))
  {
    hide ParseType, PrintType;
    TypeSound(ts);
    if Peek(ts) == KVoid {
      assert ts == [KVoid] + ts[1..];
    }
  }

  lemma ForeignSound(ts: seq<Token>)
    requires ParseForeign(ts).Got?
    ensures var r := ParseForeign(ts);
      && r.v.DForeign? && FitsDecl(r.v)
      && ts == [r.v.f, LParen] + PrintParams(r.v.params) + [Colon] + PrintReturn(r.v.ret) + [Semicolon] + r.rest
  {
    hide ParseParamList, PrintParams, ParseReturn, PrintReturn, PlainType;
    NoParams();
    var t2 := ts[1..][1..];
    assert ts == [ts[0], LParen] + t2;
    var p := ParseParams(t2);
    if Peek(t2) == RParen {
      assert t2 == [RParen] + t2[1..];
    } else {
      ParamsSound(t2);
    }
    ReturnSound(p.rest[1..]);
    var q := ParseReturn(p.rest[1..]);
    assert p.rest == [Colon] + p.rest[1..] && q.rest == [Semicolon] + q.rest[1..];
    assert ts == [ts[0], LParen] + (PrintParams(p.v) + ([Colon] + (PrintReturn(q.v) + ([Semicolon] + q.rest[1..]))));
  }

  lemma AliasSound(ts: seq<Token>)
    requires ParseAlias(ts).Got?
    ensures var r := ParseAlias(ts);
      r.v.DType? && FitsDecl(r.v) && ts == [r.v.alias, Equal] + PrintType(r.v.te) + [Semicolon] + r.rest
  {
    hide ParseType, PrintType, PlainType;
    var t2 := ts[1..][1..];
    assert ts == [ts[0], Equal] + t2;
    TypeSound(t2);
    var q := ParseType(t2);
    assert q.rest == [Semicolon] + q.rest[1..];
  }

  lemma DeclSound(ts: seq<Token>)
    requires ParseDecl(ts).Got?
    ensures var r := ParseDecl(ts); ts == PrintDecl(r.v) + r.rest && FitsDecl(r.v) && (r.v.DVar? ==> !Peek(r.rest).Id?)
  {
    hide ParseGroups, PrintGroups, FitsGroups, ParseType, PrintType, ParseForeign, ParseAlias, PrintParams,
      PrintReturn, PlainType;
    assert ts == [ts[0]] + ts[1..];
    match Peek(ts)
    case KVar => GroupsSound(ts[1..]);
    case KType =>
      AliasSound(ts[1..]);
      var r := ParseAlias(ts[1..]);
      assert [KType] + ([r.v.alias, Equal] + PrintType(r.v.te) + [Semicolon] + r.rest) == PrintDecl(r.v) + r.rest;
    case KFfi =>
      ForeignSound(ts[1..]);
      var r := ParseForeign(ts[1..]);
      var signature := [r.v.f, LParen] + PrintParams(r.v.params) + [Colon] + PrintReturn(r.v.ret) + [Semicolon];
      assert [KFfi] + (signature + r.rest)
          == PrintDecl(r.v) + r.rest;
    case KInclude =>
      var t3 := ts[1..][1..][1..];
      assert ts[1..] == [ts[1]] + ts[1..][1..] && ts[1..][1..] == [Semicolon] + t3;
  }

  lemma {:induction false} DeclsSound(ts: seq<Token>)
    requires ParseDecls(ts).Got?
    ensures var r := ParseDecls(ts); ts == PrintDecls(r.v) + r.rest && FitsDecls(r.v) && !StartsDecl(Peek(r.rest))
    decreases |ts|
  {
    hide ParseDecl, PrintDecl, FitsDecl;
    if StartsDecl(Peek(ts)) {
      DeclSound(ts);
      var d := ParseDecl(ts);
      DeclsSound(d.rest);
      var q := ParseDecls(d.rest);
      assert ([d.v] + q.v)[1..] == q.v;
      Regroup2(PrintDecl(d.v), PrintDecls(q.v), q.rest);
    } else {
      assert PrintDecls([]) + ts == ts;
    }
  }

  // ---------- splicing ----------

  datatype Spliced = Spliced(tokens: seq<Token>, seen: set<string>, rest: seq<Token>)

  /** A declaration block in which each first-seen path is replaced by the tokens of its file and
      repeats by nothing; None when some file is missing or is no declaration block. */
  function Splice(files: Files, ts: seq<Token>, seen: set<string>): (r: Option<Spliced>)
    ensures r.Some? ==> seen <= r.value.seen
    decreases files.Keys - seen, |ts|, 1
  {
    if !StartsDecl(Peek(ts)) then Some(Spliced([], seen, ts))
    else
      match ParseDecl(ts)
      case Fail => None
      case Got(d, rest) =>
        var here := if d.DInclude? then SpliceFile(files, d.path, seen) else Some((ts[..|ts| - |rest|], seen));
        if here.None? then None
        else
          match Splice(files, rest, here.value.1)
          case None => None
          case Some(s) => Some(Spliced(here.value.0 + s.tokens, s.seen, s.rest))
  }

  function SpliceFile(files: Files, path: string, seen: set<string>): (r: Option<(seq<Token>, set<string>)>)
    ensures r.Some? ==> seen <= r.value.1
    decreases files.Keys - seen, 0, 0
  {
    if path in seen then Some(([], seen))
    else if path !in files then None
    else
      match Splice(files, files[path], seen + {path})
      case None => None
      case Some(s) => if Peek(s.rest) == EndOfFile then Some((s.tokens, s.seen)) else None
  }

  ghost predicate NoIncludes(ds: seq<Decl>) {
    forall i :: 0 <= i < |ds| ==> !ds[i].DInclude?
  }

  /** The same on parsed declarations. */
  function Flatten(files: Files, ds: seq<Decl>, seen: set<string>): (r: Option<(seq<Decl>, set<string>)>)
    ensures r.Some? ==> seen <= r.value.1
    decreases files.Keys - seen, ds, 1
  {
    if ds == [] then Some(([], seen))
    else
      match FlattenOne(files, ds[0], seen)
      case None => None
      case Some((a, seen1)) =>
        match Flatten(files, ds[1..], seen1)
        case None => None
        case Some((b, seen2)) => Some((a + b, seen2))
  }

  function FlattenOne(files: Files, d: Decl, seen: set<string>): (r: Option<(seq<Decl>, set<string>)>)
    ensures r.Some? ==> seen <= r.value.1
    decreases files.Keys - seen, d, 0
  {
    if !d.DInclude? then Some(([d], seen))
    else if d.path in seen then Some(([], seen))
    else if d.path !in files then None
    else
      match ParseDecls(files[d.path])
      case Fail => None
      case Got(ds, rest) => if Peek(rest) != EndOfFile then None else Flatten(files, ds, seen + {d.path})
  }

  lemma {:induction false} PrintAppend(a: seq<Decl>, b: seq<Decl>)
    ensures PrintDecls(a + b) == PrintDecls(a) + PrintDecls(b)
    decreases |a|
  {
    hide PrintDecl;
    if a == [] {
      assert a + b == b;
    } else {
      PrintAppend(a[1..], b);
      assert (a + b)[0] == a[0] && (a + b)[1..] == a[1..] + b;
      Regroup2(PrintDecl(a[0]), PrintDecls(a[1..]), PrintDecls(b));
    }
  }

  /** Splicing tokens is flattening the parsed declarations. */
  function SplicedBy(p: Parsed<seq<Decl>>, files: Files, seen: set<string>): Option<Spliced> {
    match p
    case Fail => None
    case Got(ds, rest) =>
      match Flatten(files, ds, seen)
      case None => None
      case Some((fl, seen')) => Some(Spliced(PrintDecls(fl), seen', rest))
  }

  /** What the splice has of one declaration. */
  function SpliceOne(files: Files, d: Decl, ts: seq<Token>, rest: seq<Token>, seen: set<string>)
    : Option<(seq<Token>, set<string>)>
    requires |rest| <= |ts|
  {
    if d.DInclude? then SpliceFile(files, d.path, seen) else Some((ts[..|ts| - |rest|], seen))
  }

  lemma SpliceStep(files: Files, ts: seq<Token>, seen: set<string>)
    requires StartsDecl(Peek(ts)) && ParseDecl(ts).Got?
    ensures var d := ParseDecl(ts); var here := SpliceOne(files, d.v, ts, d.rest, seen);
      && (here.None? ==> Splice(files, ts, seen).None?)
      && (here.Some? ==>
            var tail := Splice(files, d.rest, here.value.1);
            Splice(files, ts, seen) ==
              if tail.None? then None
              else Some(Spliced(here.value.0 + tail.value.tokens, tail.value.seen, tail.value.rest)))
  {
    hide ParseDecl, SpliceFile;
  }

  lemma DeclsStep(ts: seq<Token>)
    requires StartsDecl(Peek(ts)) && ParseDecl(ts).Got?
    ensures var d := ParseDecl(ts); var q := ParseDecls(d.rest);
      ParseDecls(ts) == if q.Got? then Got([d.v] + q.v, q.rest) else Fail
  {
    hide ParseDecl;
  }

  lemma FlattenStep(files: Files, d: Decl, ds: seq<Decl>, seen: set<string>)
    ensures var here := FlattenOne(files, d, seen);
      && (here.None? ==> Flatten(files, [d] + ds, seen).None?)
      && (here.Some? ==>
            var tail := Flatten(files, ds, here.value.1);
            Flatten(files, [d] + ds, seen) ==
              if tail.None? then None else Some((here.value.0 + tail.value.0, tail.value.1)))
  {
    hide FlattenOne;
    assert ([d] + ds)[1..] == ds;
  }

  lemma {:induction false} SpliceFlattens(files: Files, ts: seq<Token>, seen: set<string>)
    ensures Splice(files, ts, seen) == SplicedBy(ParseDecls(ts), files, seen)
    decreases files.Keys - seen, |ts|, 1
  {
    if StartsDecl(Peek(ts)) && ParseDecl(ts).Got? {
      SpliceFlattensMore(files, ts, seen);
    }
  }

  lemma {:induction false} SpliceFlattensMore(files: Files, ts: seq<Token>, seen: set<string>)
    requires StartsDecl(Peek(ts)) && ParseDecl(ts).Got?
    ensures Splice(files, ts, seen) == SplicedBy(ParseDecls(ts), files, seen)
    decreases files.Keys - seen, |ts|, 0, 1
  {
    hide ParseDecl, PrintDecl, PrintDecls, ParseDecls, Splice, SpliceFile, Flatten, FlattenOne;
    var d := ParseDecl(ts);
    DeclSound(ts);
    FlattenedOne(files, d.v, seen, ts, d.rest);
    SpliceStep(files, ts, seen);
    DeclsStep(ts);
    var here := FlattenOne(files, d.v, seen);
    var q := ParseDecls(d.rest);
    if q.Got? {
      FlattenStep(files, d.v, q.v, seen);
    }
    if here.Some? {
      SpliceFlattens(files, d.rest, here.value.1);
      if q.Got? && Flatten(files, q.v, here.value.1).Some? {
        PrintAppend(here.value.0, Flatten(files, q.v, here.value.1).value.0);
      }
    }
  }

  /** One declaration: its tokens, or those of the file it includes. */
  lemma {:induction false} FlattenedOne(files: Files, d: Decl, seen: set<string>, ts: seq<Token>, rest: seq<Token>)
    requires ts == PrintDecl(d) + rest
    ensures SpliceOne(files, d, ts, rest, seen)
      == match FlattenOne(files, d, seen)
              case None => None
              case Some((a, seen1)) => Some((PrintDecls(a), seen1))
    decreases files.Keys - seen, |ts|, 0, 0
  {
    hide PrintDecl;
    if d.DInclude? {
      if d.path !in seen && d.path in files {
        SpliceFlattens(files, files[d.path], seen + {d.path});
      }
    } else {
      assert ts[..|ts| - |rest|] == PrintDecl(d) == PrintDecls([d]);
    }
  }

  /** Nothing but fitting declarations, none of them an INCLUDE, is left. */
  lemma {:induction false} FlattenFits(files: Files, ds: seq<Decl>, seen: set<string>)
    requires FitsDecls(ds)
    ensures var r := Flatten(files, ds, seen); r.Some? ==> FitsDecls(r.value.0) && NoIncludes(r.value.0)
    decreases files.Keys - seen, ds, 1
  {
    hide FitsDecl;
    if ds != [] {
      var d := ds[0];
      if d.DInclude? && d.path !in seen && d.path in files && ParseDecls(files[d.path]).Got? {
        DeclsSound(files[d.path]);
        FlattenFits(files, ParseDecls(files[d.path]).v, seen + {d.path});
      }
      var here := FlattenOne(files, d, seen);
      if here.Some? {
        FlattenFits(files, ds[1..], here.value.1);
      }
    }
  }

  /** Declarations without INCLUDE, in order. */
  ghost function DeclareAll(c: Scope, ds: seq<Decl>): Option<Scope>
    requires NoIncludes(ds)
    decreases |ds|
  {
    if ds == [] then Some(c)
    else
      match DeclarePlain(c, ds[0])
      case None => None
      case Some(c') => DeclareAll(c', ds[1..])
  }

  lemma {:induction false} DeclareAppend(c: Scope, a: seq<Decl>, b: seq<Decl>)
    requires NoIncludes(a) && NoIncludes(b)
    ensures DeclareAll(c, a + b) == match DeclareAll(c, a) { case None => None case Some(c') => DeclareAll(c', b) }
    decreases |a|
  {
    hide DeclarePlain;
    if a == [] {
      assert a + b == b;
    } else {
      assert (a + b)[0] == a[0] && (a + b)[1..] == a[1..] + b;
      if DeclarePlain(c, a[0]).Some? {
        DeclareAppend(DeclarePlain(c, a[0]).value, a[1..], b);
      }
    }
  }

  lemma {:induction false} DeclareWithoutIncludes(files: Files, ds: seq<Decl>, t: Tables)
    requires NoIncludes(ds)
    ensures Declare(files, ds, t)
         == match DeclareAll(t.scope, ds) { case None => None case Some(c) => Some(t.(scope := c)) }
    decreases |ds|
  {
    hide DeclarePlain;
    if ds != [] && DeclarePlain(t.scope, ds[0]).Some? {
      DeclareWithoutIncludes(files, ds[1..], t.(scope := DeclarePlain(t.scope, ds[0]).value));
    }
  }

  /** Declaring through INCLUDE is declaring the flattened list. */
  lemma {:induction false} DeclareFlattens(files: Files, ds: seq<Decl>, t: Tables)
    requires FitsDecls(ds)
    ensures var f := Flatten(files, ds, t.includes);
      && (f.None? ==> Declare(files, ds, t).None?)
      && (f.Some? ==>
            && NoIncludes(f.value.0)
            && var c := DeclareAll(t.scope, f.value.0);
               Declare(files, ds, t) == if c.None? then None else Some(Tables(c.value, f.value.1)))
    decreases files.Keys - t.includes, ds, 1
  {
    hide DeclarePlain, FitsDecl;
    FlattenFits(files, ds, t.includes);
    if ds != [] {
      OneFlattens(files, ds[0], t);
      var here := FlattenOne(files, ds[0], t.includes);
      var t1 := DeclareOne(files, ds[0], t);
      if here.Some? {
        var tail := Flatten(files, ds[1..], here.value.1);
        FlattenFits(files, ds[1..], here.value.1);
        if tail.Some? {
          DeclareAppend(t.scope, here.value.0, tail.value.0);
        }
        if t1.Some? {
          DeclareFlattens(files, ds[1..], t1.value);
        }
      }
    }
  }

  lemma {:induction false} OneFlattens(files: Files, d: Decl, t: Tables)
    requires FitsDecl(d)
    ensures var f := FlattenOne(files, d, t.includes);
      && (f.None? ==> DeclareOne(files, d, t).None?)
      && (f.Some? ==>
            && NoIncludes(f.value.0)
            && var c := DeclareAll(t.scope, f.value.0);
               DeclareOne(files, d, t) == if c.None? then None else Some(Tables(c.value, f.value.1)))
    decreases files.Keys - t.includes, d, 0
  {
    hide DeclarePlain;
    if d.DInclude? {
      if d.path !in t.includes && d.path in files && ParseDecls(files[d.path]).Got? {
        DeclsSound(files[d.path]);
        DeclareFlattens(files, ParseDecls(files[d.path]).v, t.(includes := t.includes + {d.path}));
      }
    }
  }

  /** The last declaration of the tokens, read as a block, is a VAR. */
  predicate LastIsVar(ts: seq<Token>) {
    ParseDecls(ts).Got? && EndsInVar(ParseDecls(ts).v)
  }

  /** The spliced tokens read as a block are the flattened declarations. */
  lemma SplicedParse(files: Files, ts: seq<Token>, seen: set<string>)
    requires Splice(files, ts, seen).Some?
    ensures ParseDecls(ts).Got? && Flatten(files, ParseDecls(ts).v, seen).Some?
    ensures var s := Splice(files, ts, seen).value; var fl := Flatten(files, ParseDecls(ts).v, seen).value.0;
      && s == Spliced(PrintDecls(fl), Flatten(files, ParseDecls(ts).v, seen).value.1, ParseDecls(ts).rest)
      && FitsDecls(fl) && NoIncludes(fl) && !StartsDecl(Peek(s.rest)) && LastIsVar(s.tokens) == EndsInVar(fl)
  {
    hide Splice, Flatten, ParseDecls, PrintDecls, FitsDecl, FitsDecls, NoIncludes;
    SpliceFlattens(files, ts, seen);
    DeclsSound(ts);
    FlattenFits(files, ParseDecls(ts).v, seen);
    var fl := Flatten(files, ParseDecls(ts).v, seen).value.0;
    DeclsComplete(fl, []);
    assert PrintDecls(fl) + [] == PrintDecls(fl);
  }

  /** INCLUDE is splicing: the block declares exactly what the one spliced token sequence declares,
      without any file, and leaves the same tokens, unless the last declaration spliced in is a VAR
      and an identifier follows. */
  lemma {:induction false} IncludeSplicing(files: Files, ts: seq<Token>, t: Tables)
    requires var s := Splice(files, ts, t.includes); s.Some? ==> !(Peek(s.value.rest).Id? && LastIsVar(s.value.tokens))
    ensures DeclareBlock(files, ts, t) ==
      match Splice(files, ts, t.includes)
      case None => None
      case Some(s) =>
        match DeclareBlock(map[], s.tokens + s.rest, Tables(t.scope, {}))
        case None => None
        case Some((t', rest)) => Some((Tables(t'.scope, s.seen), rest))
    ensures DeclareBlock(files, ts, t).Some? ==>
      DeclareBlock(files, ts, t).value.1 == Splice(files, ts, t.includes).value.rest
  {
    hide Splice, ParseDecls, PrintDecls, Declare, Flatten, FitsDecl, FitsDecls, NoIncludes, LastIsVar;
    SpliceFlattens(files, ts, t.includes);
    var p := ParseDecls(ts);
    if p.Got? {
      DeclsSound(ts);
      DeclareFlattens(files, p.v, t);
      var f := Flatten(files, p.v, t.includes);
      if f.Some? {
        SplicedParse(files, ts, t.includes);
        DeclsComplete(f.value.0, p.rest);
        DeclareWithoutIncludes(map[], f.value.0, Tables(t.scope, {}));
      }
    }
  }

  /** A VAR block in front of an identifier goes on into what follows. */
  lemma {:induction false} GroupsRunOn(gs: seq<Group>, rest: seq<Token>)
    requires FitsGroups(gs) && Peek(rest).Id?
    ensures var r := ParseGroups(PrintGroups(gs) + rest); r.Got? ==> |r.rest| < |rest|
    decreases |gs|
  {
    hide ParseGroup, PrintGroup, FitsGroup;
    var more := PrintGroups(gs[1..]) + rest;
    assert PrintGroups(gs) + rest == PrintGroup(gs[0]) + more by {
      Regroup2(PrintGroup(gs[0]), PrintGroups(gs[1..]), rest);
    }
    GroupComplete(gs[0], more);
    if |gs| == 1 {
      assert more == rest;
    } else {
      GroupsRunOn(gs[1..], rest);
      GroupStarts(gs[1], PrintGroups(gs[1..][1..]) + rest);
      Regroup2(PrintGroup(gs[1]), PrintGroups(gs[1..][1..]), rest);
    }
  }

  lemma {:induction false} DeclsRunOn(ds: seq<Decl>, rest: seq<Token>)
    requires FitsDecls(ds) && EndsInVar(ds) && Peek(rest).Id?
    ensures var r := ParseDecls(PrintDecls(ds) + rest); r.Got? ==> |r.rest| < |rest|
    decreases |ds|
  {
    hide ParseDecl, PrintDecl, FitsDecl;
    var more := PrintDecls(ds[1..]) + rest;
    FirstOfDecls(ds, rest);
    FirstOfDecls(ds[1..], rest);
    Regroup2(PrintDecl(ds[0]), PrintDecls(ds[1..]), rest);
    if |ds| == 1 {
      VarRunsOn(ds[0], rest);
    } else {
      DeclComplete(ds[0], more);
      DeclsRunOn(ds[1..], rest);
    }
  }

  lemma VarRunsOn(d: Decl, rest: seq<Token>)
    requires FitsDecl(d) && d.DVar? && Peek(rest).Id?
    ensures var r := ParseDecl(PrintDecl(d) + rest); r.Got? ==> |r.rest| < |rest|
  {
    hide ParseDecl, ParseGroups, PrintGroups;
    KeywordStep(PrintGroups(d.groups) + rest);
    GroupsRunOn(d.groups, rest);
    Regroup2([KVar], PrintGroups(d.groups), rest);
  }

  /** The spliced token sequence gives the tables of the block and leaves the same tokens. */
  ghost predicate SplicesExactly(files: Files, ts: seq<Token>, t: Tables)
    requires DeclareBlock(files, ts, t).Some? && Splice(files, ts, t.includes).Some?
  {
    var (t', rest) := DeclareBlock(files, ts, t).value;
    var s := Splice(files, ts, t.includes).value;
    DeclareBlock(map[], s.tokens + s.rest, Tables(t.scope, {})) == Some((Tables(t'.scope, {}), rest))
      && t'.includes == s.seen
  }

  /** An accepted block splices exactly iff no identifier follows or the last declaration spliced in is
      no VAR. */
  lemma SplicingCondition(files: Files, ts: seq<Token>, t: Tables)
    requires DeclareBlock(files, ts, t).Some?
    ensures Splice(files, ts, t.includes).Some?
    ensures var s := Splice(files, ts, t.includes).value;
      SplicesExactly(files, ts, t) <==> !(Peek(s.rest).Id? && LastIsVar(s.tokens))
  {
    hide Splice, ParseDecls, PrintDecls, Declare, Flatten, FitsDecl, FitsDecls, NoIncludes, LastIsVar;
    BlockSplices(files, ts, t);
    var s := Splice(files, ts, t.includes).value;
    if Peek(s.rest).Id? && LastIsVar(s.tokens) {
      SplicedParse(files, ts, t.includes);
      DeclsRunOn(Flatten(files, ParseDecls(ts).v, t.includes).value.0, s.rest);
    } else {
      IncludeSplicing(files, ts, t);
      SplicedIncludesNothing(files, ts, t);
    }
  }

  lemma SplicedIncludesNothing(files: Files, ts: seq<Token>, t: Tables)
    requires Splice(files, ts, t.includes).Some?
    requires var s := Splice(files, ts, t.includes).value; !(Peek(s.rest).Id? && LastIsVar(s.tokens))
    ensures var s := Splice(files, ts, t.includes).value;
      var r := DeclareBlock(map[], s.tokens + s.rest, Tables(t.scope, {})); r.Some? ==> r.value.0.includes == {}
  {
    hide Splice, ParseDecls, PrintDecls, Declare, Flatten, FitsDecl, FitsDecls, NoIncludes, LastIsVar;
    SplicedParse(files, ts, t.includes);
    var fl := Flatten(files, ParseDecls(ts).v, t.includes).value.0;
    DeclsComplete(fl, ParseDecls(ts).rest);
    DeclareWithoutIncludes(map[], fl, Tables(t.scope, {}));
  }

  lemma BlockSplices(files: Files, ts: seq<Token>, t: Tables)
    requires DeclareBlock(files, ts, t).Some?
    ensures Splice(files, ts, t.includes).Some? && ParseDecls(ts).Got?
    ensures Flatten(files, ParseDecls(ts).v, t.includes).Some?
    ensures DeclareBlock(files, ts, t).value.1 == Splice(files, ts, t.includes).value.rest == ParseDecls(ts).rest
  {
    hide Splice, ParseDecls, Declare, Flatten, FitsDecls;
    SpliceFlattens(files, ts, t.includes);
    DeclsSound(ts);
    DeclareFlattens(files, ParseDecls(ts).v, t);
  }

  lemma OneDecl(d: Decl, rest: seq<Token>)
    requires FitsDecl(d) && (d.DVar? ==> !Peek(rest).Id?) && !StartsDecl(Peek(rest))
    ensures ParseDecls(PrintDecl(d) + rest) == Got([d], rest)
  {
    hide PrintDecl, FitsDecl, ParseDecl;
    DeclStarts(d);
    DeclComplete(d, rest);
    assert ParseDecls(rest) == Got([], rest) && [d] + [] == [d];
  }

  lemma TwoGroups(a: Group, b: Group)
    ensures PrintDecl(DVar([a, b])) == PrintDecl(DVar([a])) + PrintGroup(b)
  {
    hide PrintGroup;
    assert [a, b][1..] == [b] && [a][1..] == [] && [b][1..] == [];
    assert PrintGroups([b]) == PrintGroup(b) && PrintGroups([a]) == PrintGroup(a);
    Regroup2([KVar], PrintGroup(a), PrintGroup(b));
  }

  lemma DeclareNames(a: Name, b: Name)
    requires a != b
    ensures var ga, gb := Group([a], Named(BInteger)), Group([b], Named(BInteger));
      && DeclareGroups(EMPTY_SCOPE, [ga]) == Some(EMPTY_SCOPE.(vars := map[a := TInt]))
      && DeclareGroups(EMPTY_SCOPE, [ga, gb]) == Some(EMPTY_SCOPE.(vars := map[a := TInt][b := TInt]))
  {
    var ga, gb := Group([a], Named(BInteger)), Group([b], Named(BInteger));
    assert [a][1..] == [] && [b][1..] == [] && [ga][1..] == [] && [ga, gb][1..] == [gb];
    var one := EMPTY_SCOPE.(vars := map[a := TInt]);
    assert EMPTY_SCOPE.vars[a := TInt] == map[a := TInt];
    assert DeclareVars(one, [], TInt) == Some(one);
    assert DeclareVars(EMPTY_SCOPE, [a], TInt) == Some(one);
    var two := one.(vars := map[a := TInt][b := TInt]);
    assert DeclareVars(two, [], TInt) == Some(two);
    assert DeclareVars(one, [b], TInt) == Some(two);
    assert DeclareGroups(one, [gb]) == DeclareGroups(two, []);
  }

  /** Why the premise is needed: spliced in front of an identifier, the VAR block of an included
      file takes in declarations that the file by itself does not. */
  lemma SplicingNeedsItsPremise()
    ensures var a, b := Group([Id("a")], Named(BInteger)), Group([Id("b")], Named(BInteger));
      var files := map["f" := PrintDecl(DVar([a]))];
      var ts := PrintDecl(DInclude("f")) + PrintGroup(b);
      var none := Tables(EMPTY_SCOPE, {});
      && Splice(files, ts, {}) == Some(Spliced(files["f"], {"f"}, PrintGroup(b)))
      && DeclareBlock(files, ts, none) == Some((Tables(EMPTY_SCOPE.(vars := map[Id("a") := TInt]), {"f"}),
                                                PrintGroup(b)))
      && DeclareBlock(map[], files["f"] + PrintGroup(b), none)
         == Some((Tables(EMPTY_SCOPE.(vars := map[Id("a") := TInt][Id("b") := TInt]), {}), []))
  {
    hide PrintGroup, PrintGroups, PrintDecl, ParseDecls, DeclareGroups, Declare, Flatten, Splice;
    var a, b := Group([Id("a")], Named(BInteger)), Group([Id("b")], Named(BInteger));
    var da, f, ab := DVar([a]), DInclude("f"), DVar([a, b]);
    var files := map["f" := PrintDecl(da)];
    var ts := PrintDecl(f) + PrintGroup(b);
    GroupStarts(b, []);
    assert PrintGroup(b) + [] == PrintGroup(b);
    OneDecl(f, PrintGroup(b));
    assert PrintDecl(da) + [] == PrintDecl(da);
    OneDecl(da, []);
    TwoGroups(a, b);
    assert PrintDecl(ab) + [] == PrintDecl(da) + PrintGroup(b);
    OneDecl(ab, []);
    DeclareNames(Id("a"), Id("b"));
    SpliceFlattens(files, ts, {});
    FlatExample(files, da, f);
    DeclareExample(files, da, f, ab);
  }

  lemma FlatExample(files: Files, d: Decl, f: Decl)
    requires f.DInclude? && !d.DInclude? && f.path in files && ParseDecls(files[f.path]) == Got([d], [])
    ensures Flatten(files, [f], {}) == Some(([d], {f.path})) && PrintDecls([d]) == PrintDecl(d)
  {
    hide ParseDecls, PrintDecl;
    assert [d][1..] == [] && [f][1..] == [] && {} + {f.path} == {f.path} && [d] + [] == [d];
    assert Flatten(files, [d], {f.path}) == Some(([d], {f.path}));
    assert FlattenOne(files, f, {}) == Some(([d], {f.path}));
  }

  lemma DeclareExample(files: Files, d: Decl, f: Decl, ab: Decl)
    requires f.DInclude? && d.DVar? && ab.DVar? && f.path in files && ParseDecls(files[f.path]) == Got([d], [])
    ensures var c := DeclareGroups(EMPTY_SCOPE, d.groups);
      Declare(files, [f], Tables(EMPTY_SCOPE, {})) == if c.None? then None else Some(Tables(c.value, {f.path}))
    ensures var c := DeclareGroups(EMPTY_SCOPE, ab.groups);
      Declare(map[], [ab], Tables(EMPTY_SCOPE, {})) == if c.None? then None else Some(Tables(c.value, {}))
  {
    hide ParseDecls, DeclareGroups;
    var none := Tables(EMPTY_SCOPE, {});
    assert [d][1..] == [] && [f][1..] == [] && [ab][1..] == [] && {} + {f.path} == {f.path};
    var inner := Tables(EMPTY_SCOPE, {f.path});
    assert none.(includes := none.includes + {f.path}) == inner;
    assert DeclareOne(files, f, none) == Declare(files, [d], inner);
    var c := DeclareGroups(EMPTY_SCOPE, d.groups);
    assert DeclareOne(files, d, inner) == if c.None? then None else Some(Tables(c.value, {f.path}));
    if c.Some? {
      assert Declare(files, [], Tables(c.value, {f.path})) == Some(Tables(c.value, {f.path}));
      assert Declare(files, [d], inner) == Some(Tables(c.value, {f.path}));
    }
  }
}
