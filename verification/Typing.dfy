/** The static semantics: which trees the type checker accepts, over structural types. */
module Typing {
  import opened Syntax

  datatype Option<+T> = None | Some(value: T)

  datatype Ty = TInt | TDouble | TBool | TChar | TPtr(target: Ty)

  /** A foreign function; no return type stands for VOID. */
  datatype Sig = Sig(params: seq<Ty>, ret: Option<Ty>)

  /** The symbol tables as the main block sees them. */
  datatype Scope = Scope(vars: map<Name, Ty>, aliases: map<Name, Ty>, funcs: map<Name, Sig>)

  function BuiltinTy(b: Builtin): Ty {
    match b
    case BInteger => TInt
    case BDouble => TDouble
    case BBoolean => TBool
    case BChar => TChar
  }

  function Resolve(aliases: map<Name, Ty>, te: TypeExpr): Option<Ty> {
    match te
    case Named(b) => Some(BuiltinTy(b))
    case Alias(x) => if x in aliases then Some(aliases[x]) else None
    case PointerTo(t) =>
      match Resolve(aliases, t)
      case None => None
      case Some(ty) => Some(TPtr(ty))
  }

  function LiteralTy(t: Token): Ty {
    if t.CharLit? then TChar else if t.FloatLit? then TDouble else TInt
  }

  predicate IsArithmetic(t: Ty) {
    t.TInt? || t.TDouble?
  }

  /** Conversions for which the emitter has an instruction sequence, possibly empty. */
  predicate Convertible(from: Ty, to: Ty) {
    from == to || to.TChar? || (from.TInt? && to.TDouble?) || (from.TDouble? && to.TInt?)
  }

  function CheckExpr(c: Scope, e: Expr): Option<Ty>
    decreases e
  {
    match e
    case Lit(t) => if IsLiteral(t) then Some(LiteralTy(t)) else None
    case Var(x) => if x in c.vars then Some(c.vars[x]) else None
    case Ref(x) => if x in c.vars then Some(TPtr(c.vars[x])) else None
    case Deref(a) =>
      (match CheckExpr(c, a)
       case Some(TPtr(t)) => Some(t)
       case _ => None)
    case Negate(a) => if CheckExpr(c, a) == Some(TBool) then Some(TBool) else None
    case Paren(a) => CheckExpr(c, a)
    case Bin(op, l, r) => CheckBin(op, CheckExpr(c, l), CheckExpr(c, r))
    case Rel(_, l, r) => CheckRel(CheckExpr(c, l), CheckExpr(c, r))
    case Conv(a, te) => CheckConv(CheckExpr(c, a), Resolve(c.aliases, te))
    case Call(f, args) =>
      if f in c.funcs && c.funcs[f].ret.Some? && Callable(c.funcs[f])
         && CheckArgs(c, args, c.funcs[f].params)
      then c.funcs[f].ret
      else None
  }

  function TyOf(c: Scope, e: Expr): Ty {
    match CheckExpr(c, e)
    case Some(t) => t
    case None => TInt
  }

  function CheckBin(op: BinOp, l: Option<Ty>, r: Option<Ty>): Option<Ty> {
    if l.Some? && l == r && (if op == OpAnd || op == OpOr then l.value.TBool? else IsArithmetic(l.value))
    then l
    else None
  }

  function CheckRel(l: Option<Ty>, r: Option<Ty>): Option<Ty> {
    if l.Some? && l == r && IsArithmetic(l.value) then Some(TBool) else None
  }

  function CheckConv(from: Option<Ty>, to: Option<Ty>): Option<Ty> {
    if from.Some? && to.Some? && !from.value.TPtr? && !to.value.TPtr? && Convertible(from.value, to.value)
    then to
    else None
  }

  predicate CheckArgs(c: Scope, args: seq<Expr>, params: seq<Ty>)
    decreases args
  {
    if args == [] then params == []
    else params != [] && CheckExpr(c, args[0]) == Some(params[0]) && CheckArgs(c, args[1..], params[1..])
  }

  function RegularCount(params: seq<Ty>): nat {
    if params == [] then 0 else (if params[0].TDouble? then 0 else 1) + RegularCount(params[1..])
  }

  function FloatCount(params: seq<Ty>): nat {
    if params == [] then 0 else (if params[0].TDouble? then 1 else 0) + FloatCount(params[1..])
  }

  /** The signatures that a call can be emitted for: every argument fits a register, none is
      a pointer, and the result is VOID, INTEGER, CHAR or DOUBLE. */
  predicate Callable(s: Sig) {
    && (forall i :: 0 <= i < |s.params| ==> !s.params[i].TPtr?)
    && RegularCount(s.params) <= 6
    && FloatCount(s.params) <= 8
    && (s.ret.Some? ==> s.ret.value.TInt? || s.ret.value.TChar? || s.ret.value.TDouble?)
  }

  /** The type `k` dereferences away from `t`. */
  function Strip(t: Ty, k: nat): Option<Ty> {
    if k == 0 then Some(t)
    else if t.TPtr? then Strip(t.target, k - 1)
    else None
  }

  predicate CheckStmt(c: Scope, s: Stmt)
    decreases s
  {
    match s
    case Assignment(x, k, e) => CheckAssign(c, x, k, e)
    case IfElse(e, t, f) => CheckExpr(c, e) == Some(TBool) && CheckStmt(c, t) && CheckStmt(c, f)
    case IfOnly(e, t) => CheckExpr(c, e) == Some(TBool) && CheckStmt(c, t)
    case Loop(e, b) => CheckExpr(c, e) == Some(TBool) && CheckStmt(c, b)
    case ForTo(x, k, from, to, b) =>
      && CheckAssign(c, x, k, from) && k == 0 && c.vars[x].TInt?
      && CheckExpr(c, to) == Some(TInt) && CheckStmt(c, b)
    case Block(ss, _) => CheckStmts(c, ss)
    case Show(e) => CheckExpr(c, e).Some? && !CheckExpr(c, e).value.TPtr?
    case CallStmt(f, args) =>
      f in c.funcs && Callable(c.funcs[f]) && CheckArgs(c, args, c.funcs[f].params)
  }

  predicate CheckAssign(c: Scope, x: Name, k: nat, e: Expr) {
    && x in c.vars
    && CheckExpr(c, e).Some?
    && CheckExpr(c, e) == Strip(c.vars[x], k)
  }

  predicate CheckStmts(c: Scope, ss: seq<Stmt>)
    decreases ss
  {
    ss == [] || (CheckStmt(c, ss[0]) && CheckStmts(c, ss[1..]))
  }
}
