/** Type identifiers and the interning of user types. */
module TypeTable {
  import opened Syntax
  import opened Typing

  const VOID := 0
  const UNSIGNED_INT := 1
  const DOUBLE := 2
  const BOOLEAN := 3
  const CHAR := 4
  const ARITHMETIC := 5
  const FIRST_USER_DEFINED := 7

  datatype UserType = Pointer(target: int)

  /** The user types and the last identifier handed out. */
  datatype Types = Types(user: map<int, UserType>, last: int)

  const NO_TYPES := Types(map[], FIRST_USER_DEFINED)

  predicate IsBuiltin(id: int) {
    UNSIGNED_INT <= id <= CHAR
  }

  predicate IsUserDefined(id: int) {
    id >= FIRST_USER_DEFINED
  }

  predicate ValidId(ts: Types, id: int) {
    IsBuiltin(id) || id in ts.user
  }

  /** Identifiers are handed out consecutively, each to one pointer type, above its target. */
  ghost predicate ValidTypes(ts: Types) {
    && ts.last >= FIRST_USER_DEFINED
    && (forall id :: id in ts.user <==> FIRST_USER_DEFINED < id <= ts.last)
    && (forall id :: id in ts.user ==> ts.user[id].target < id && ValidId(ts, ts.user[id].target))
    && (forall a, b :: a in ts.user && b in ts.user && ts.user[a] == ts.user[b] ==> a == b)
  }

  function BuiltinId(b: Builtin): int {
    match b
    case BInteger => UNSIGNED_INT
    case BDouble => DOUBLE
    case BBoolean => BOOLEAN
    case BChar => CHAR
  }

  function BuiltinOf(id: int): Ty
    requires IsBuiltin(id)
  {
    if id == UNSIGNED_INT then TInt else if id == DOUBLE then TDouble else if id == BOOLEAN then TBool else TChar
  }

  /** The structure an identifier stands for. */
  function Den(ts: Types, id: int): Option<Ty>
    decreases if id < 0 then 0 else id
  {
    if IsBuiltin(id) then Some(BuiltinOf(id))
    else if id > 0 && id in ts.user && ts.user[id].target < id then
      match Den(ts, ts.user[id].target)
      case Some(t) => Some(TPtr(t))
      case None => None
    else None
  }

  lemma {:induction false} DenValid(ts: Types, id: int)
    requires ValidTypes(ts) && ValidId(ts, id)
    ensures Den(ts, id).Some?
    decreases id
  {
    if !IsBuiltin(id) {
      DenValid(ts, ts.user[id].target);
    }
  }

  /** Two identifiers are equal iff they stand for the same structure. */
  lemma {:induction false} Canonical(ts: Types, a: int, b: int)
    requires ValidTypes(ts) && ValidId(ts, a) && ValidId(ts, b)
    ensures Den(ts, a) == Den(ts, b) <==> a == b
    decreases a
  {
    DenValid(ts, a);
    DenValid(ts, b);
    if a in ts.user && b in ts.user {
      DenValid(ts, ts.user[a].target);
      DenValid(ts, ts.user[b].target);
      Canonical(ts, ts.user[a].target, ts.user[b].target);
    }
  }

  predicate Extends(ts: Types, ts': Types) {
    forall id :: id in ts.user ==> id in ts'.user && ts'.user[id] == ts.user[id]
  }

  lemma {:induction false} DenExtends(ts: Types, ts': Types, id: int)
    requires ValidTypes(ts) && ValidId(ts, id) && Extends(ts, ts')
    ensures Den(ts', id) == Den(ts, id) && ValidId(ts', id)
    decreases id
  {
    if !IsBuiltin(id) {
      DenExtends(ts, ts', ts.user[id].target);
    }
  }

  predicate SameUserType(a: UserType, b: UserType) {
    a.target == b.target
  }

  /** The identifier of a pointer type: the one it already has, or the next free one. */
  ghost function Intern(ts: Types, u: UserType): (Types, int) {
    if id :| id in ts.user && ts.user[id] == u then (ts, id)
    else (Types(ts.user[ts.last + 1 := u], ts.last + 1), ts.last + 1)
  }

  lemma InternKnown(ts: Types, u: UserType, id: int)
    requires ValidTypes(ts) && id in ts.user && ts.user[id] == u
    ensures Intern(ts, u) == (ts, id)
  {}

  lemma InternNew(ts: Types, u: UserType)
    requires forall id :: id in ts.user ==> ts.user[id] != u
    ensures Intern(ts, u) == (Types(ts.user[ts.last + 1 := u], ts.last + 1), ts.last + 1)
  {}

  /** A fresh identifier is above every other one, so "already allocated" cannot happen. */
  lemma InternValid(ts: Types, u: UserType)
    requires ValidTypes(ts) && ValidId(ts, u.target)
    ensures ts.last + 1 !in ts.user
    ensures var (ts', id) := Intern(ts, u);
      && ValidTypes(ts') && Extends(ts, ts') && id in ts'.user && ts'.user[id] == u
      && Den(ts, u.target).Some? && Den(ts', u.target) == Den(ts, u.target)
      && Den(ts', id) == Some(TPtr(Den(ts, u.target).value))
      && (id !in ts.user ==> id == ts.last + 1 && id > u.target)
  {
    var (ts', id) := Intern(ts, u);
    DenValid(ts, u.target);
    DenExtends(ts, ts', u.target);
  }

  /** A type expression against the identifiers of the aliases. */
  ghost function InternExpr(ts: Types, aliases: map<Name, int>, te: TypeExpr): (Types, Option<int>)
    decreases te
  {
    match te
    case Named(b) => (ts, Some(BuiltinId(b)))
    case Alias(x) => (ts, if x in aliases then Some(aliases[x]) else None)
    case PointerTo(t) =>
      match InternExpr(ts, aliases, t)
      case (ts1, None) => (ts1, None)
      case (ts1, Some(id)) => var (ts2, p) := Intern(ts1, Pointer(id)); (ts2, Some(p))
  }

  /** Alias identifiers read as structures. */
  ghost function Structures(ts: Types, ids: map<Name, int>): map<Name, Ty> {
    map x | x in ids && Den(ts, ids[x]).Some? :: Den(ts, ids[x]).value
  }

  ghost predicate ValidIds(ts: Types, ids: map<Name, int>) {
    forall x :: x in ids ==> ValidId(ts, ids[x])
  }

  lemma StructuresStable(ts: Types, ts': Types, ids: map<Name, int>)
    requires ValidTypes(ts) && ValidIds(ts, ids) && Extends(ts, ts')
    ensures Structures(ts', ids) == Structures(ts, ids) && ValidIds(ts', ids)
  {
    forall x | x in ids ensures Den(ts', ids[x]) == Den(ts, ids[x]) && ValidId(ts', ids[x]) {
      DenExtends(ts, ts', ids[x]);
    }
  }

  /** Interning a type expression gives an identifier of its structure after alias expansion, and
      fails exactly on an unknown alias. */
  lemma {:induction false} InternExprCorrect(ts: Types, aliases: map<Name, int>, te: TypeExpr)
    requires ValidTypes(ts) && ValidIds(ts, aliases)
    ensures var (ts', id) := InternExpr(ts, aliases, te);
      && ValidTypes(ts') && Extends(ts, ts')
      && (id.Some? ==> ValidId(ts', id.value) && Den(ts', id.value) == Resolve(Structures(ts, aliases), te))
      && (id.None? ==> Resolve(Structures(ts, aliases), te).None?)
  {
    match te
    case Named(_) =>
    case Alias(x) =>
      if x in aliases {
        DenValid(ts, aliases[x]);
      }
    case PointerTo(t) =>
      InternExprCorrect(ts, aliases, t);
      var (ts1, id) := InternExpr(ts, aliases, t);
      if id.Some? {
        DenValid(ts1, id.value);
        InternValid(ts1, Pointer(id.value));
      }
  }

  /** A type expression where it is used, or behind `TYPE a =`. */
  datatype Item = Use(te: TypeExpr) | Define(a: Name, te: TypeExpr)

  /** A program as the type table sees it: the identifier of each item in turn, up to the first type
      expression that does not resolve or alias that is taken. */
  ghost function InternAll(ts: Types, aliases: map<Name, int>, items: seq<Item>): (Types, seq<int>)
    decreases |items|
  {
    if items == [] then (ts, [])
    else
      match InternExpr(ts, aliases, items[0].te)
      case (ts1, None) => (ts1, [])
      case (ts1, Some(id)) =>
        if items[0].Define? && items[0].a in aliases then (ts1, [])
        else
          var (ts2, ids) := InternAll(ts1, if items[0].Define? then aliases[items[0].a := id] else aliases, items[1..]);
          (ts2, [id] + ids)
  }

  /** The structures that the same items denote. */
  function ResolveAll(aliases: map<Name, Ty>, items: seq<Item>): seq<Ty>
    decreases |items|
  {
    if items == [] then []
    else
      match Resolve(aliases, items[0].te)
      case None => []
      case Some(t) =>
        if items[0].Define? && items[0].a in aliases then []
        else [t] + ResolveAll(if items[0].Define? then aliases[items[0].a := t] else aliases, items[1..])
  }

  lemma StructuresDefine(ts: Types, aliases: map<Name, int>, a: Name, id: int)
    requires ValidTypes(ts) && ValidIds(ts, aliases) && ValidId(ts, id)
    ensures ValidIds(ts, aliases[a := id]) && Den(ts, id).Some?
    ensures Structures(ts, aliases[a := id]) == Structures(ts, aliases)[a := Den(ts, id).value]
    ensures a in Structures(ts, aliases) <==> a in aliases
  {
    DenValid(ts, id);
    forall x | x in aliases ensures Den(ts, aliases[x]).Some? {
      DenValid(ts, aliases[x]);
    }
  }

  /** Every item gets an identifier of its structure, as of where it stands and after everything behind
      it, and exactly as many items succeed as resolve. */
  lemma {:induction false} InternAllCorrect(ts: Types, aliases: map<Name, int>, items: seq<Item>)
    requires ValidTypes(ts) && ValidIds(ts, aliases)
    ensures var (ts', ids) := InternAll(ts, aliases, items);
      var tys := ResolveAll(Structures(ts, aliases), items);
      && ValidTypes(ts') && Extends(ts, ts') && |ids| == |tys|
      && forall i :: 0 <= i < |ids| ==> ValidId(ts', ids[i]) && Den(ts', ids[i]) == Some(tys[i])
    decreases |items|
  {
    hide ValidTypes, ValidIds, ValidId, Extends, Den, Structures, InternExpr, Resolve;
    ExtendsSelf(ts);
    if items != [] {
      InternExprCorrect(ts, aliases, items[0].te);
      var (ts1, id) := InternExpr(ts, aliases, items[0].te);
      if id.Some? {
        StructuresStable(ts, ts1, aliases);
        StructuresDefine(ts1, aliases, if items[0].Define? then items[0].a else Id(""), id.value);
        var al := if items[0].Define? then aliases[items[0].a := id.value] else aliases;
        if !(items[0].Define? && items[0].a in aliases) {
          InternAllCorrect(ts1, al, items[1..]);
          var (ts2, ids) := InternAll(ts1, al, items[1..]);
          ExtendsPlus(ts, ts1, ts2);
          DenExtends(ts1, ts2, id.value);
        }
      }
    }
  }

  lemma ExtendsSelf(ts: Types)
    ensures Extends(ts, ts)
  {}

  lemma ExtendsPlus(a: Types, b: Types, c: Types)
    requires Extends(a, b) && Extends(b, c)
    ensures Extends(a, c)
  {}

  /** After any sequence of uses and TYPE declarations, two type expressions have the same identifier
      iff they denote the same structure after alias expansion, each under the aliases declared before
      it. */
  lemma InterningCanonical(ts: Types, aliases: map<Name, int>, items: seq<Item>, i: nat, j: nat)
    requires ValidTypes(ts) && ValidIds(ts, aliases)
    ensures var (_, ids) := InternAll(ts, aliases, items);
      var tys := ResolveAll(Structures(ts, aliases), items);
      |ids| == |tys| && (i < |ids| && j < |ids| ==> (ids[i] == ids[j] <==> tys[i] == tys[j]))
  {
    hide ValidIds, Structures, InternAll, ResolveAll;
    InternAllCorrect(ts, aliases, items);
    var (ts', ids) := InternAll(ts, aliases, items);
    if i < |ids| && j < |ids| {
      Canonical(ts', ids[i], ids[j]);
    }
  }
}
