/** The context-free side of the front end: parsing tokens to trees, and printing trees. */
module Grammar {
  import opened Syntax

  datatype Parsed<+T> = Fail | Got(v: T, rest: seq<Token>)

  function Peek(ts: seq<Token>): Token {
    if ts == [] then EndOfFile else ts[0]
  }

  function Advance(ts: seq<Token>): seq<Token> {
    if ts == [] then [] else ts[1..]
  }

  function ParseType(ts: seq<Token>): (r: Parsed<TypeExpr>)
    ensures r.Got? ==> |r.rest| < |ts|
    decreases |ts|
  {
    match Peek(ts)
    case TypeName(b) => Got(Named(b), ts[1..])
    case Id(x) => Got(Alias(Id(x)), ts[1..])
    case Caret =>
      (match ParseType(ts[1..])
       case Got(t, rest) => Got(PointerTo(t), rest)
       case Fail => Fail)
    case _ => Fail
  }

  /** A literal, a variable, a call, `@x`, `!factor`, a conversion or a parenthesised expression. */
  function ParsePrimary(ts: seq<Token>): (r: Parsed<Expr>)
    ensures r.Got? ==> |r.rest| < |ts|
    decreases |ts|, 0
  {
    var t := Peek(ts);
    match t
    case LParen =>
      (match ParseExpr(ts[1..])
       case Got(e, rest) => if Peek(rest) == RParen then Got(Paren(e), Advance(rest)) else Fail
       case Fail => Fail)
    case Bang =>
      (match ParseFactor(ts[1..])
       case Got(e, rest) => Got(Negate(e), rest)
       case Fail => Fail)
    case At => if Peek(ts[1..]).Id? then Got(Ref(ts[1]), ts[2..]) else Fail
    case CharLit(_) => Got(Lit(t), ts[1..])
    case IntLit(_, _) => Got(Lit(t), ts[1..])
    case FloatLit(_, _) => Got(Lit(t), ts[1..])
    case Id(_) =>
      if Peek(ts[1..]) == LParen then
        (match ParseArgs(ts[2..])
         case Got(args, rest) => Got(Call(t, args), rest)
         case Fail => Fail)
      else Got(Var(t), ts[1..])
    case KConvert =>
      (match ParseExpr(ts[1..])
       case Got(e, rest) =>
         if Peek(rest) != KTo then Fail
         else (match ParseType(Advance(rest))
               case Got(te, rest') => Got(Conv(e, te), rest')
               case Fail => Fail)
       case Fail => Fail)
    case _ => Fail
  }

  /** Any number of postfix dereferences. */
  function CaretLoop(e: Expr, ts: seq<Token>): (r: Parsed<Expr>)
    ensures r.Got? && |r.rest| <= |ts|
    decreases |ts|
  {
    if Peek(ts) == Caret then CaretLoop(Deref(e), ts[1..]) else Got(e, ts)
  }

  function ParseFactor(ts: seq<Token>): (r: Parsed<Expr>)
    ensures r.Got? ==> |r.rest| < |ts|
    decreases |ts|, 1
  {
    match ParsePrimary(ts)
    case Got(e, rest) => CaretLoop(e, rest)
    case Fail => Fail
  }

  /** Multiplicative operators, associating to the left. */
  function TermLoop(l: Expr, ts: seq<Token>): (r: Parsed<Expr>)
    ensures r.Got? ==> |r.rest| <= |ts|
    decreases |ts|, 2
  {
    if !IsMulTok(Peek(ts)) then Got(l, ts)
    else
      match ParseFactor(ts[1..])
      case Got(r, rest) => TermLoop(Bin(ts[0].op, l, r), rest)
      case Fail => Fail
  }

  function ParseTerm(ts: seq<Token>): (r: Parsed<Expr>)
    ensures r.Got? ==> |r.rest| < |ts|
    decreases |ts|, 3
  {
    match ParseFactor(ts)
    case Got(e, rest) => TermLoop(e, rest)
    case Fail => Fail
  }

  /** Additive operators, associating to the left. */
  function SimpleLoop(l: Expr, ts: seq<Token>): (r: Parsed<Expr>)
    ensures r.Got? ==> |r.rest| <= |ts|
    decreases |ts|, 4
  {
    if !IsAddTok(Peek(ts)) then Got(l, ts)
    else
      match ParseTerm(ts[1..])
      case Got(r, rest) => SimpleLoop(Bin(ts[0].op, l, r), rest)
      case Fail => Fail
  }

  function ParseSimple(ts: seq<Token>): (r: Parsed<Expr>)
    ensures r.Got? ==> |r.rest| < |ts|
    decreases |ts|, 5
  {
    match ParseTerm(ts)
    case Got(e, rest) => SimpleLoop(e, rest)
    case Fail => Fail
  }

  /** At most one relational operator. */
  function ParseExpr(ts: seq<Token>): (r: Parsed<Expr>)
    ensures r.Got? ==> |r.rest| < |ts|
    decreases |ts|, 6
  {
    match ParseSimple(ts)
    case Fail => Fail
    case Got(l, rest) =>
      if !Peek(rest).Relational? then Got(l, rest)
      else
        match ParseSimple(rest[1..])
        case Got(r, rest') => Got(Rel(rest[0].rel, l, r), rest')
        case Fail => Fail
  }

  /** The arguments of a call, from behind `(` to behind `)`. */
  function ParseArgs(ts: seq<Token>): (r: Parsed<seq<Expr>>)
    ensures r.Got? ==> |r.rest| < |ts|
    decreases |ts|, 8
  {
    if Peek(ts) == RParen then Got([], ts[1..]) else ParseArgList(ts)
  }

  function ParseArgList(ts: seq<Token>): (r: Parsed<seq<Expr>>)
    ensures r.Got? ==> |r.rest| < |ts|
    decreases |ts|, 7
  {
    match ParseExpr(ts)
    case Fail => Fail
    case Got(e, rest) =>
      if Peek(rest) == Comma then
        (match ParseArgList(rest[1..])
         case Got(es, rest') => Got([e] + es, rest')
         case Fail => Fail)
      else if Peek(rest) == RParen then Got([e], rest[1..])
      else Fail
  }

  function CountCarets(ts: seq<Token>): (k: nat)
    ensures k <= |ts|
  {
    if Peek(ts) == Caret then 1 + CountCarets(ts[1..]) else 0
  }

  datatype Assigned = Assigned(carets: nat, e: Expr)

  /** An assignment, from behind its identifier. */
  function ParseAssign(ts: seq<Token>): (r: Parsed<Assigned>)
    ensures r.Got? ==> |r.rest| < |ts|
  {
    var k := CountCarets(ts);
    if Peek(ts[k..]) != Token.Assign then Fail
    else
      match ParseExpr(ts[k + 1..])
      case Got(e, rest) => Got(Assigned(k, e), rest)
      case Fail => Fail
  }

  function ParseStmt(ts: seq<Token>): (r: Parsed<Stmt>)
    ensures r.Got? ==> |r.rest| < |ts|
    decreases |ts|, 2
  {
    match Peek(ts)
    case KIf =>
      (match ParseExpr(ts[1..])
       case Fail => Fail
       case Got(e, r1) =>
         if Peek(r1) != KThen then Fail else
         match ParseStmt(r1[1..])
         case Fail => Fail
         case Got(t, r2) =>
           if Peek(r2) != KElse then Got(IfOnly(e, t), r2) else
           match ParseStmt(r2[1..])
           case Fail => Fail
           case Got(f, r3) => Got(IfElse(e, t, f), r3))
    case KWhile =>
      (match ParseExpr(ts[1..])
       case Fail => Fail
       case Got(e, r1) =>
         if Peek(r1) != KDo then Fail else
         match ParseStmt(r1[1..])
         case Fail => Fail
         case Got(b, r2) => Got(Loop(e, b), r2))
    case KFor => ParseFor(ts[1..])
    case KBegin => ParseBlock(ts)
    case KDisplay =>
      (match ParseExpr(ts[1..])
       case Got(e, rest) => Got(Show(e), rest)
       case Fail => Fail)
    case Id(_) =>
      if Peek(ts[1..]) == LParen then
        (match ParseArgs(ts[2..])
         case Got(args, rest) => Got(CallStmt(ts[0], args), rest)
         case Fail => Fail)
      else
        (match ParseAssign(ts[1..])
         case Got(a, rest) => Got(Assignment(ts[0], a.carets, a.e), rest)
         case Fail => Fail)
    case _ => Fail
  }

  function ParseFor(ts: seq<Token>): (r: Parsed<Stmt>)
    ensures r.Got? ==> |r.rest| < |ts|
    decreases |ts|, 3
  {
    if !Peek(ts).Id? then Fail else
    match ParseAssign(ts[1..])
    case Fail => Fail
    case Got(a, r1) =>
      if Peek(r1) != KTo then Fail else
      match ParseExpr(r1[1..])
      case Fail => Fail
      case Got(e, r2) =>
        if Peek(r2) != KDo then Fail else
        match ParseStmt(r2[1..])
        case Fail => Fail
        case Got(b, r3) => Got(ForTo(ts[0], a.carets, a.e, e, b), r3)
  }

  function ParseBlock(ts: seq<Token>): (r: Parsed<Stmt>)
    ensures r.Got? ==> |r.rest| < |ts|
    decreases |ts|, 1
  {
    if Peek(ts) != KBegin then Fail
    else if Peek(ts[1..]) == KEnd then Got(Block([], false), ts[2..])
    else ParseItems(ts[1..])
  }

  /** One or more statements, with an optional semicolon before END. */
  function ParseItems(ts: seq<Token>): (r: Parsed<Stmt>)
    ensures r.Got? ==> r.v.Block? && |r.rest| < |ts|
    decreases |ts|, 3
  {
    match ParseStmt(ts)
    case Fail => Fail
    case Got(s, rest) =>
      if Peek(rest) == Semicolon then
        if Peek(rest[1..]) == KEnd then Got(Block([s], true), rest[2..])
        else (match ParseItems(rest[1..])
              case Got(b, rest') => Got(Block([s] + b.stmts, b.trailing), rest')
              case Fail => Fail)
      else if Peek(rest) == KEnd then Got(Block([s], false), rest[1..])
      else Fail
  }

  // ---------- printing ----------

  function PrintType(t: TypeExpr): seq<Token> {
    match t
    case Named(b) => [TypeName(b)]
    case Alias(x) => [x]
    case PointerTo(u) => [Caret] + PrintType(u)
  }

  function Print(e: Expr): seq<Token>
    decreases e, 0
  {
    match e
    case Lit(t) => [t]
    case Var(x) => [x]
    case Ref(x) => [At, x]
    case Deref(a) => Print(a) + [Caret]
    case Negate(a) => [Bang] + Print(a)
    case Bin(op, l, r) => Print(l) + [Binary(op)] + Print(r)
    case Rel(op, l, r) => Print(l) + [Relational(op)] + Print(r)
    case Conv(a, te) => [KConvert] + Print(a) + [KTo] + PrintType(te)
    case Call(f, args) => [f, LParen] + PrintArgs(args)
    case Paren(a) => [LParen] + Print(a) + [RParen]
  }

  /** The arguments with the closing parenthesis. */
  function PrintArgs(args: seq<Expr>): seq<Token>
    decreases args, 2
  {
    if args == [] then [RParen] else PrintArgList(args)
  }

  function PrintArgList(args: seq<Expr>): seq<Token>
    requires args != []
    decreases args, 1
  {
    if |args| == 1 then Print(args[0]) + [RParen]
    else Print(args[0]) + [Comma] + PrintArgList(args[1..])
  }

  function Carets(k: nat): seq<Token> {
    if k == 0 then [] else [Caret] + Carets(k - 1)
  }

  function PrintAssign(k: nat, e: Expr): seq<Token> {
    Carets(k) + [Token.Assign] + Print(e)
  }

  function PrintStmt(s: Stmt): seq<Token>
    decreases s
  {
    match s
    case Assignment(x, k, e) => [x] + PrintAssign(k, e)
    case IfElse(e, t, f) => [KIf] + Print(e) + [KThen] + PrintStmt(t) + [KElse] + PrintStmt(f)
    case IfOnly(e, t) => [KIf] + Print(e) + [KThen] + PrintStmt(t)
    case Loop(e, b) => [KWhile] + Print(e) + [KDo] + PrintStmt(b)
    case ForTo(x, k, from, to, b) => [KFor, x] + PrintAssign(k, from) + [KTo] + Print(to) + [KDo] + PrintStmt(b)
    case Block(ss, trailing) => [KBegin] + (if ss == [] then [KEnd] else PrintItems(ss, trailing))
    case Show(e) => [KDisplay] + Print(e)
    case CallStmt(f, args) => [f, LParen] + PrintArgs(args)
  }

  function PrintItems(ss: seq<Stmt>, trailing: bool): seq<Token>
    requires ss != []
    decreases ss
  {
    if |ss| == 1 then PrintStmt(ss[0]) + (if trailing then [Semicolon, KEnd] else [KEnd])
    else PrintStmt(ss[0]) + [Semicolon] + PrintItems(ss[1..], trailing)
  }

  // ---------- which trees print without further parentheses ----------

  /** 0 for a dereferencable, 1 factor, 2 term, 3 simple expression, 4 expression. */
  function Level(e: Expr): nat {
    match e
    case Deref(_) => 1
    case Bin(op, _, _) => if IsMulOp(op) then 2 else 3
    case Rel(_, _, _) => 4
    case _ => 0
  }

  predicate PlainType(t: TypeExpr) {
    match t
    case Named(_) => true
    case Alias(x) => x.Id?
    case PointerTo(u) => PlainType(u)
  }

  /** Every operand is at the level its position takes. `!` takes a whole factor, so nothing can
      dereference it without parentheses. */
  predicate Fits(e: Expr, k: nat)
    decreases e, 1
  {
    Level(e) <= k &&
    match e
    case Lit(t) => IsLiteral(t)
    case Var(x) => x.Id?
    case Ref(x) => x.Id?
    case Deref(a) => Fits(a, 1) && !a.Negate?
    case Negate(a) => Fits(a, 1)
    case Bin(op, l, r) => if IsMulOp(op) then Fits(l, 2) && Fits(r, 1) else Fits(l, 3) && Fits(r, 2)
    case Rel(_, l, r) => Fits(l, 3) && Fits(r, 3)
    case Conv(a, te) => Fits(a, 4) && PlainType(te)
    case Call(f, args) => f.Id? && FitsAll(args)
    case Paren(a) => Fits(a, 4)
  }

  predicate FitsAll(args: seq<Expr>)
    decreases args
  {
    forall i :: 0 <= i < |args| ==> Fits(args[i], 4)
  }

  /** A statement that an ELSE behind it would extend. */
  predicate OpenIf(s: Stmt) {
    match s
    case IfOnly(_, _) => true
    case IfElse(_, _, f) => OpenIf(f)
    case Loop(_, b) => OpenIf(b)
    case ForTo(_, _, _, _, b) => OpenIf(b)
    case _ => false
  }

  predicate FitsStmt(s: Stmt)
    decreases s
  {
    match s
    case Assignment(x, _, e) => x.Id? && Fits(e, 4)
    case IfElse(e, t, f) => Fits(e, 4) && FitsStmt(t) && !OpenIf(t) && FitsStmt(f)
    case IfOnly(e, t) => Fits(e, 4) && FitsStmt(t)
    case Loop(e, b) => Fits(e, 4) && FitsStmt(b)
    case ForTo(x, _, from, to, b) => x.Id? && Fits(from, 4) && Fits(to, 4) && FitsStmt(b)
    case Block(ss, trailing) => (ss == [] ==> !trailing) && forall i :: 0 <= i < |ss| ==> FitsStmt(ss[i])
    case Show(e) => Fits(e, 4)
    case CallStmt(f, args) => f.Id? && FitsAll(args)
  }
}
