/** Tokens with their literal values attached, and the trees they denote. */
module Syntax {
  import opened Words

  datatype BinOp = OpAdd | OpSub | OpOr | OpMul | OpDiv | OpMod | OpAnd
  datatype RelOp = RelEqu | RelDiff | RelInf | RelSup | RelInfe | RelSupe
  datatype Builtin = BInteger | BDouble | BBoolean | BChar

  /** Two tokens are equal exactly when they have the same spelling
      (`!=` and `<>` count as one spelling). */
  datatype Token =
    | EndOfFile | Unknown(text: string)
    | KBegin | KEnd | KWhile | KFor | KTo | KDo | KIf | KThen | KElse
    | KDisplay | KVar | KType | KConvert | KFfi | KInclude
    | TypeName(builtin: Builtin) | KVoid
    | Binary(op: BinOp) | Relational(rel: RelOp)
    | CharLit(code: Word) | FloatLit(text: string, bits: Word) | IntLit(text: string, value: Word)
    | Id(name: string) | StringConst(path: string)
    | RBracket | LBracket | LParen | RParen
    | Comma | Colon | Semicolon | Dot | Bang | Assign | Caret | At | Equal

  /** A name is the token that spells it: a VAR block takes any token as a name. */
  type Name = Token

  predicate IsMulOp(op: BinOp) {
    op == OpMul || op == OpDiv || op == OpMod || op == OpAnd
  }

  predicate IsMulTok(t: Token) {
    t.Binary? && IsMulOp(t.op)
  }

  predicate IsAddTok(t: Token) {
    t.Binary? && !IsMulOp(t.op)
  }

  predicate IsLiteral(t: Token) {
    t.CharLit? || t.FloatLit? || t.IntLit?
  }

  function LiteralWord(t: Token): Word
    requires IsLiteral(t)
  {
    match t
    case CharLit(c) => c
    case FloatLit(_, b) => b
    case IntLit(_, v) => v
  }

  datatype TypeExpr = Named(b: Builtin) | Alias(x: Name) | PointerTo(target: TypeExpr)

  datatype Expr =
    | Lit(t: Token)
    | Var(x: Name)
    | Ref(x: Name)
    | Deref(e: Expr)
    | Negate(e: Expr)
    | Bin(op: BinOp, l: Expr, r: Expr)
    | Rel(rel: RelOp, l: Expr, r: Expr)
    | Conv(e: Expr, to: TypeExpr)
    | Call(f: Name, args: seq<Expr>)
    | Paren(e: Expr)

  datatype Stmt =
    | Assignment(x: Name, carets: nat, e: Expr)
    | IfElse(c: Expr, thn: Stmt, els: Stmt)
    | IfOnly(c: Expr, thn: Stmt)
    | Loop(c: Expr, body: Stmt)
    | ForTo(x: Name, carets: nat, from: Expr, to: Expr, body: Stmt)
    | Block(stmts: seq<Stmt>, trailing: bool)
    | Show(e: Expr)
    | CallStmt(f: Name, args: seq<Expr>)
}
