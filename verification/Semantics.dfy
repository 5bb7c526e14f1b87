/** The intended meaning of the trees, on typed values.

    Every result carries a flag. It stays true as long as the run only performs operations for
    which the emitted sequence computes the intended value; each place where the two can differ
    clears it under the exact condition of the difference. The meaning itself never depends on it. */
module Semantics {
  import opened Words
  import opened Syntax
  import opened Typing
  import opened Machine

  datatype Value =
    | VInt(w: Word) | VDouble(bits: Word) | VBool(b: bool) | VChar(c: Word)
    | VPtr(target: Option<Name>)

  type Globals = map<Name, Value>

  datatype TrapKind = DivisionByZero | NullDereference

  datatype Result =
    | Val(v: Value, tr: Trace, ok: bool)
    | Trap(k: TrapKind, tr: Trace, ok: bool)
    | Wrong

  /** A value or a trap, with the flag up. */
  predicate Clean(r: Result) {
    match r
    case Val(_, _, ok) => ok
    case Trap(_, _, ok) => ok
    case Wrong => false
  }

  datatype Operands =
    | Both(a: Value, b: Value, tr: Trace, ok: bool)
    | OperandTrap(k: TrapKind, tr: Trace, ok: bool)
    | OperandWrong

  datatype ArgResult =
    | Vals(vs: seq<Value>, tr: Trace, ok: bool)
    | ArgTrap(k: TrapKind, tr: Trace, ok: bool)
    | ArgWrong

  /** Globals declared with the type of the value; a pointer is null or the address of a global
      declared with exactly its target type. */
  predicate HasType(c: Scope, v: Value, t: Ty) {
    match v
    case VInt(_) => t.TInt?
    case VDouble(_) => t.TDouble?
    case VBool(_) => t.TBool?
    case VChar(_) => t.TChar?
    case VPtr(p) => t.TPtr? && (p.Some? ==> p.value in c.vars && c.vars[p.value] == t.target)
  }

  predicate WellTyped(c: Scope, st: Globals) {
    st.Keys == c.vars.Keys && forall x :: x in st ==> HasType(c, st[x], c.vars[x])
  }

  function Default(t: Ty): Value {
    match t
    case TInt => VInt(0)
    case TDouble => VDouble(0)
    case TBool => VBool(false)
    case TChar => VChar(0)
    case TPtr(_) => VPtr(None)
  }

  /** Globals start zeroed. */
  function Initial(c: Scope): Globals {
    map x | x in c.vars :: Default(c.vars[x])
  }

  function LiteralValue(t: Token): Value
    requires IsLiteral(t)
  {
    match t
    case CharLit(k) => VChar(k)
    case FloatLit(_, b) => VDouble(b)
    case IntLit(_, v) => VInt(v)
  }

  /** A literal in [2^31, 2^32) is pushed sign-extended. */
  predicate LiteralFits(w: Word) {
    !(0x8000_0000 <= w < 0x1_0000_0000)
  }

  function Weaken(r: Result, flag: bool): Result {
    match r
    case Val(v, tr, ok) => Val(v, tr, ok && flag)
    case Trap(k, tr, ok) => Trap(k, tr, ok && flag)
    case Wrong => Wrong
  }

  function IntMeaning(op: BinOp, a: Word, b: Word, tr: Trace): Result {
    match op
    case OpAdd => Val(VInt(Wrap(a + b)), tr, true)
    case OpSub => Val(VInt(Wrap(a - b)), tr, true)
    case OpMul => Val(VInt(Wrap(a * b)), tr, true)
    case OpDiv => if b == 0 then Trap(DivisionByZero, tr, true) else Val(VInt(a / b), tr, true)
    case OpMod =>
      // the quotient is pushed, not the remainder
      if b == 0 then Trap(DivisionByZero, tr, true) else Val(VInt(a % b), tr, a / b == a % b)
    case _ => Wrong
  }

  function BoolMeaning(op: BinOp, a: bool, b: bool, tr: Trace): Result {
    match op
    case OpOr => Val(VBool(a || b), tr, true)
    case OpAnd => Val(VBool(a && b), tr, a ==> b) // the left operand is pushed
    case _ => Wrong
  }

  /** `%` on DOUBLE is C's fmod, called as a foreign function. */
  function DoubleMeaning(o: Env, op: BinOp, a: Word, b: Word, tr: Trace): Result {
    match op
    case OpMod =>
      var tr' := tr + [Called(Id("fmod"), [a, b])];
      Val(VDouble(Get(o.foreign(tr'), XMM(0))), tr', true)
    case OpOr => Wrong
    case OpAnd => Wrong
    case _ => Val(VDouble(o.fl.arith(op, a, b)), tr, true)
  }

  function BinMeaning(o: Env, op: BinOp, a: Value, b: Value, tr: Trace): Result {
    match (a, b)
    case (VInt(x), VInt(y)) => IntMeaning(op, x, y, tr)
    case (VBool(x), VBool(y)) => BoolMeaning(op, x, y, tr)
    case (VDouble(x), VDouble(y)) => DoubleMeaning(o, op, x, y, tr)
    case _ => Wrong
  }

  predicate RelInt(op: RelOp, a: Word, b: Word) {
    match op
    case RelEqu => a == b
    case RelDiff => a != b
    case RelInf => a < b
    case RelSup => a > b
    case RelInfe => a <= b
    case RelSupe => a >= b
  }

  predicate RelOrder(op: RelOp, x: Ordering) {
    match op
    case RelEqu => x.Same?
    case RelDiff => !x.Same?
    case RelInf => x.Less?
    case RelSup => x.Greater?
    case RelInfe => x.Less? || x.Same?
    case RelSupe => x.Greater? || x.Same?
  }

  function RelMeaning(o: Env, op: RelOp, a: Value, b: Value, tr: Trace): Result {
    match (a, b)
    case (VInt(x), VInt(y)) => Val(VBool(RelInt(op, x, y)), tr, true)
    case (VDouble(x), VDouble(y)) =>
      var ord := o.fl.compare(x, y);
      // an unordered pair sets both flags that these four read
      Val(VBool(RelOrder(op, ord)), tr, ord.Unordered? ==> op == RelSup || op == RelSupe)
    case _ => Wrong
  }

  function ConvMeaning(o: Env, v: Value, to: Ty, tr: Trace): Result {
    match (v, to)
    case (VInt(w), TInt) => Val(v, tr, true)
    case (VDouble(w), TDouble) => Val(v, tr, true)
    case (VBool(b), TBool) => Val(v, tr, true)
    case (VChar(w), TChar) => Val(v, tr, true)
    case (VInt(w), TChar) => Val(VChar(w), tr, true)
    case (VInt(w), TDouble) => Val(VDouble(o.fl.ofInt(w)), tr, w < HALF) // fildq reads a signed word
    case (VDouble(w), TInt) =>
      var i := o.fl.toInt(w);
      Val(VInt(Wrap(i)), tr, -0x8000_0000_0000_0000 <= i < 0x8000_0000_0000_0000 || Wrap(i) == HALF)
    case (VDouble(w), TChar) =>
      // no instruction is emitted
      var i := Wrap(o.fl.toInt(w));
      Val(VChar(i), tr, i == w)
    case (VBool(b), TChar) => Val(VChar(if b then 1 else 0), tr, !b)
    case _ => Wrong
  }

  function DerefMeaning(st: Globals, v: Value, tr: Trace): Result {
    match v
    case VPtr(None) => Trap(NullDereference, tr, true)
    case VPtr(Some(x)) => if x in st then Val(st[x], tr, true) else Wrong
    case _ => Wrong
  }

  /** What a C function receives: a BOOLEAN arrives as 0 or 1. */
  function ArgWord(v: Value): Word {
    match v
    case VInt(w) => w
    case VDouble(w) => w
    case VBool(b) => if b then 1 else 0
    case VChar(w) => w
    case VPtr(_) => 0
  }

  function ArgWords(vs: seq<Value>): seq<Word> {
    if vs == [] then [] else [ArgWord(vs[0])] + ArgWords(vs[1..])
  }

  function ForeignValue(o: Env, tr: Trace, t: Ty): Value {
    match t
    case TChar => VChar(Get(o.foreign(tr), RAX))
    case TDouble => VDouble(Get(o.foreign(tr), XMM(0)))
    case _ => VInt(Get(o.foreign(tr), RAX))
  }

  /** The expression contains a foreign call or a DOUBLE `%`. */
  predicate CallsOut(c: Scope, e: Expr)
    decreases e
  {
    match e
    case Call(_, _) => true
    case Bin(op, l, r) => (op == OpMod && TyOf(c, l).TDouble?) || CallsOut(c, l) || CallsOut(c, r)
    case Rel(_, l, r) => CallsOut(c, l) || CallsOut(c, r)
    case Deref(a) => CallsOut(c, a)
    case Negate(a) => CallsOut(c, a)
    case Paren(a) => CallsOut(c, a)
    case Conv(a, _) => CallsOut(c, a)
    case _ => false
  }

  /** The expression contains an INTEGER `*`, `/` or `%`, which overwrite %rdx. */
  predicate UsesRdx(c: Scope, e: Expr)
    decreases e
  {
    match e
    case Bin(op, l, r) =>
      ((op == OpMul || op == OpDiv || op == OpMod) && !TyOf(c, l).TDouble?) || UsesRdx(c, l) || UsesRdx(c, r)
    case Rel(_, l, r) => UsesRdx(c, l) || UsesRdx(c, r)
    case Deref(a) => UsesRdx(c, a)
    case Negate(a) => UsesRdx(c, a)
    case Paren(a) => UsesRdx(c, a)
    case Conv(a, _) => UsesRdx(c, a)
    case _ => false
  }

  /** Evaluating the remaining arguments keeps the `ri` regular and `fi` DOUBLE argument
      registers that are already loaded. */
  predicate KeepsArgs(c: Scope, args: seq<Expr>, ri: nat, fi: nat) {
    args == [] ||
    (&& (ri + fi > 0 ==> !CallsOut(c, args[0]))
     && (ri >= 3 ==> !UsesRdx(c, args[0]))
     && if TyOf(c, args[0]).TDouble? then KeepsArgs(c, args[1..], ri, fi + 1)
        else KeepsArgs(c, args[1..], ri + 1, fi))
  }

  function Eval(c: Scope, o: Env, e: Expr, st: Globals, tr: Trace): Result
    decreases e, 1
  {
    match e
    case Lit(t) => if IsLiteral(t) then Val(LiteralValue(t), tr, LiteralFits(LiteralWord(t))) else Wrong
    case Var(x) => if x in st then Val(st[x], tr, true) else Wrong
    case Ref(x) => Val(VPtr(Some(x)), tr, true)
    case Paren(a) => Eval(c, o, a, st, tr)
    case Deref(a) =>
      (match Eval(c, o, a, st, tr)
       case Val(v, tr1, ok) => Weaken(DerefMeaning(st, v, tr1), ok)
       case r => r)
    case Negate(a) =>
      (match Eval(c, o, a, st, tr)
       case Val(VBool(b), tr1, ok) => Val(VBool(!b), tr1, ok)
       case Val(_, _, _) => Wrong
       case r => r)
    case Bin(op, _, _) =>
      (match EvalOperands(c, o, e, st, tr)
       case Both(a, b, tr2, ok) => Weaken(BinMeaning(o, op, a, b, tr2), ok)
       case OperandTrap(k, tr1, ok) => Trap(k, tr1, ok)
       case OperandWrong => Wrong)
    case Rel(op, _, _) =>
      (match EvalOperands(c, o, e, st, tr)
       case Both(a, b, tr2, ok) => Weaken(RelMeaning(o, op, a, b, tr2), ok)
       case OperandTrap(k, tr1, ok) => Trap(k, tr1, ok)
       case OperandWrong => Wrong)
    case Conv(a, te) =>
      (match Eval(c, o, a, st, tr)
       case Val(v, tr1, ok) =>
         var to := Resolve(c.aliases, te);
         if to.Some? then Weaken(ConvMeaning(o, v, to.value, tr1), ok) else Wrong
       case q => q)
    case Call(f, args) =>
      (match EvalArgs(c, o, args, st, tr)
       case Vals(vs, tr1, ok) =>
         var tr' := tr1 + [Called(f, ArgWords(vs))];
         if f in c.funcs && c.funcs[f].ret.Some?
         then Val(ForeignValue(o, tr', c.funcs[f].ret.value), tr', ok && KeepsArgs(c, args, 0, 0))
         else Wrong
       case ArgTrap(k, tr1, ok) => Trap(k, tr1, ok)
       case ArgWrong => Wrong)
  }

  /** Both operands of a binary node, left before right. */
  function EvalOperands(c: Scope, o: Env, e: Expr, st: Globals, tr: Trace): Operands
    requires e.Bin? || e.Rel?
    decreases e, 0
  {
    match Eval(c, o, e.l, st, tr)
    case Val(a, tr1, ok1) =>
      (match Eval(c, o, e.r, st, tr1)
       case Val(b, tr2, ok2) => Both(a, b, tr2, ok1 && ok2)
       case Trap(k, tr2, ok2) => OperandTrap(k, tr2, ok1 && ok2)
       case Wrong => OperandWrong)
    case Trap(k, tr1, ok1) => OperandTrap(k, tr1, ok1)
    case Wrong => OperandWrong
  }

  function EvalArgs(c: Scope, o: Env, args: seq<Expr>, st: Globals, tr: Trace): ArgResult
    decreases args, 2
  {
    if args == [] then Vals([], tr, true)
    else
      match Eval(c, o, args[0], st, tr)
      case Val(v, tr1, ok1) =>
        (match EvalArgs(c, o, args[1..], st, tr1)
         case Vals(vs, tr2, ok2) => Vals([v] + vs, tr2, ok1 && ok2)
         case ArgTrap(k, tr2, ok2) => ArgTrap(k, tr2, ok1 && ok2)
         case ArgWrong => ArgWrong)
      case Trap(k, tr1, ok1) => ArgTrap(k, tr1, ok1)
      case Wrong => ArgWrong
  }

  /** The state between statements. `leaks` are the results of non-VOID calls made as statements,
      which nothing ever pops. */
  datatype SourceState = SourceState(st: Globals, tr: Trace, leaks: Stack)

  /** How a run ends, with the state it ends in; also the one in which a trap happens or the fuel
      runs out. */
  datatype Outcome =
    | Done(s: SourceState, ok: bool)
    | Trapped(k: TrapKind, s: SourceState, ok: bool)
    | OutOfFuel(s: SourceState, ok: bool)
    | Stray

  /** A run that does not stray, with the flag up. */
  predicate CleanOutcome(r: Outcome) {
    match r
    case Done(_, ok) => ok
    case Trapped(_, _, ok) => ok
    case OutOfFuel(_, ok) => ok
    case Stray => false
  }

  function Flagged(r: Outcome, flag: bool): Outcome {
    match r
    case Done(s, ok) => Done(s, ok && flag)
    case Trapped(k, s, ok) => Trapped(k, s, ok && flag)
    case OutOfFuel(s, ok) => OutOfFuel(s, ok && flag)
    case Stray => Stray
  }

  /** The global that `k` dereferences of `x` designate; Some(None) is a null on the way. */
  function Follow(st: Globals, x: Name, k: nat): Option<Option<Name>> {
    if k == 0 then Some(Some(x))
    else
      match Follow(st, x, k - 1)
      case Some(Some(y)) => if y in st && st[y].VPtr? then Some(st[y].target) else None
      case q => q
  }

  function AssignTo(s: SourceState, x: Name, k: nat, v: Value, tr: Trace, ok: bool): Outcome {
    match Follow(s.st, x, k)
    case Some(Some(y)) => if y in s.st then Done(s.(st := s.st[y := v], tr := tr), ok) else Stray
    case Some(None) => Trapped(NullDereference, s.(tr := tr), ok)
    case None => Stray
  }

  function ExecAssign(c: Scope, o: Env, x: Name, k: nat, e: Expr, s: SourceState): Outcome {
    match Eval(c, o, e, s.st, s.tr)
    case Val(v, tr, ok) => AssignTo(s, x, k, v, tr, ok)
    case Trap(kind, tr, ok) => Trapped(kind, s.(tr := tr), ok)
    case Wrong => Stray
  }

  function Exec(c: Scope, o: Env, t: Stmt, s: SourceState, fuel: nat): Outcome
    decreases fuel, t, 0
  {
    match t
    case Assignment(x, k, e) => ExecAssign(c, o, x, k, e, s)
    case IfElse(e, a, b) =>
      (match Eval(c, o, e, s.st, s.tr)
       case Val(VBool(v), tr, ok) =>
         if v then Flagged(Exec(c, o, a, s.(tr := tr), fuel), ok)
         else Flagged(Exec(c, o, b, s.(tr := tr), fuel), ok)
       case Trap(k, tr, ok) => Trapped(k, s.(tr := tr), ok)
       case _ => Stray)
    case IfOnly(e, a) =>
      (match Eval(c, o, e, s.st, s.tr)
       case Val(VBool(v), tr, ok) =>
         if v then Flagged(Exec(c, o, a, s.(tr := tr), fuel), ok) else Done(s.(tr := tr), ok)
       case Trap(k, tr, ok) => Trapped(k, s.(tr := tr), ok)
       case _ => Stray)
    case Loop(e, b) =>
      if fuel == 0 then OutOfFuel(s, true) else
      (match Eval(c, o, e, s.st, s.tr)
       case Val(VBool(v), tr, ok) =>
         if !v then Done(s.(tr := tr), ok) else
         (match Exec(c, o, b, s.(tr := tr), fuel)
          case Done(s1, ok1) => Flagged(Exec(c, o, t, s1, fuel - 1), ok && ok1)
          case q => Flagged(q, ok))
       case Trap(k, tr, ok) => Trapped(k, s.(tr := tr), ok)
       case _ => Stray)
    case ForTo(x, k, from, to, b) =>
      (match ExecAssign(c, o, x, k, from, s)
       case Done(s1, ok) => Flagged(ExecFor(c, o, x, to, b, s1, fuel), ok)
       case q => q)
    case Block(ss, _) => ExecAll(c, o, ss, s, fuel)
    case Show(e) =>
      (match Eval(c, o, e, s.st, s.tr)
       case Val(v, tr, ok) =>
         if v.VPtr? then Stray else Done(s.(tr := tr + [Printed(FormatFor(v), ArgWord(v))]), ok)
       case Trap(k, tr, ok) => Trapped(k, s.(tr := tr), ok)
       case Wrong => Stray)
    case CallStmt(f, args) =>
      (match EvalArgs(c, o, args, s.st, s.tr)
       case Vals(vs, tr1, ok) =>
         if f !in c.funcs then Stray else
         var tr' := tr1 + [Called(f, ArgWords(vs))];
         var ret := c.funcs[f].ret;
         var s' := s.(tr := tr');
         Done(if ret.None? then s' else s'.(leaks := Cons(ArgWord(ForeignValue(o, tr', ret.value)), s.leaks)),
              ok && KeepsArgs(c, args, 0, 0))
       case ArgTrap(k, tr1, ok) => Trapped(k, s.(tr := tr1), ok)
       case ArgWrong => Stray)
  }

  function FormatFor(v: Value): Format {
    if v.VChar? then FmtChar else if v.VDouble? then FmtFloat else FmtUnsigned
  }

  function Bump(s: SourceState, x: Name): SourceState
    requires x in s.st && s.st[x].VInt?
  {
    s.(st := s.st[x := VInt(Wrap(s.st[x].w + 1))])
  }

  /** The rounds of a FOR. The bound is evaluated before each of them and the exit test is
      emitted signed, so the flag asks for both operands on the same side of 2^63. */
  function ExecFor(c: Scope, o: Env, x: Name, to: Expr, b: Stmt, s: SourceState, fuel: nat): Outcome
    decreases fuel, b, 1
  {
    if fuel == 0 then OutOfFuel(s, true) else
    match Eval(c, o, to, s.st, s.tr)
    case Val(VInt(hi), tr, ok) =>
      if x !in s.st || !s.st[x].VInt? then Stray else
      var v := s.st[x].w;
      var same := (hi < HALF) == (v < HALF);
      if hi < v then Done(s.(tr := tr), ok && same) else
      (match Exec(c, o, b, s.(tr := tr), fuel)
       case Done(s1, ok1) =>
         if x !in s1.st || !s1.st[x].VInt? then Stray else
         Flagged(ExecFor(c, o, x, to, b, Bump(s1, x), fuel - 1), ok && same && ok1)
       case q => Flagged(q, ok && same))
    case Trap(k, tr, ok) => Trapped(k, s.(tr := tr), ok)
    case _ => Stray
  }

  function ExecAll(c: Scope, o: Env, ss: seq<Stmt>, s: SourceState, fuel: nat): Outcome
    decreases fuel, ss, 0
  {
    if ss == [] then Done(s, true)
    else
      match Exec(c, o, ss[0], s, fuel)
      case Done(s1, ok) => Flagged(ExecAll(c, o, ss[1..], s1, fuel), ok)
      case q => q
  }
}
