/** The instruction sequences the emitter writes, and the code of a whole tree as a pure
    function of the tree and the label counter. */
module Emission {
  import opened Words
  import opened Syntax
  import opened Typing
  import opened Machine

  const FMOD: Name := Id("fmod")

  function LoadImm(v: Word): seq<Instr> {
    if v >= 0x1_0000_0000 then [MovImm(v, RAX), PushReg(RAX)] else [PushImm(v)]
  }

  const POP_INTS: seq<Instr> := [PopReg(RBX), PopReg(RAX)]
  const LOAD_DOUBLES: seq<Instr> := [Fld(0), Fld(1), AddRsp(16)]
  const STORE_DOUBLE: seq<Instr> := [AddRsp(-8), Fstp]

  /** The operands of a binary operation, taken off the stack. */
  function LoadBinop(t: Ty): seq<Instr> {
    if t.TDouble? then LOAD_DOUBLES else POP_INTS
  }

  const ALIGN: seq<Instr> := [RspToR12, AndR12, AndRsp]

  function AlignedCall(i: Instr): seq<Instr> {
    ALIGN + [i, OrR12Rsp]
  }

  const SWAP_XMM: seq<Instr> := [Pxor(0, 1), Pxor(1, 0), Pxor(0, 1)]

  function PopArg(t: Ty, ri: nat, fi: nat): seq<Instr> {
    if t.TBool? then [PopReg(IntReg(ri)), AndOne(IntReg(ri))]
    else if t.TDouble? then [MovsdLoad(fi), AddRsp(8)]
    else [PopReg(IntReg(ri))]
  }

  function PushResult(ret: Option<Ty>): seq<Instr> {
    if ret.None? then []
    else if ret.value.TDouble? then [AddRsp(-8), MovsdStore]
    else [PushReg(RAX)]
  }

  function FinishCall(f: Name, ret: Option<Ty>): seq<Instr> {
    AlignedCall(CallForeign(f)) + PushResult(ret)
  }

  const FMOD_CODE: seq<Instr> :=
    PopArg(TDouble, 0, 0) + PopArg(TDouble, 0, 1) + SWAP_XMM + FinishCall(FMOD, Some(TDouble))

  function IntOp(op: BinOp): seq<Instr> {
    match op
    case OpAdd => [AddReg, PushReg(RAX)]
    case OpSub => [SubReg, PushReg(RAX)]
    case OpMul => [MulReg, PushReg(RAX)]
    case OpDiv => [MovImm(0, RDX), DivReg, PushReg(RAX)]
    case OpMod => [MovImm(0, RDX), DivReg, PushReg(RAX)]
    case OpOr => [OrReg, PushReg(RAX)]
    case OpAnd => [AndReg, PushReg(RAX)]
  }

  function BinCode(op: BinOp, t: Ty): seq<Instr> {
    if !t.TDouble? then POP_INTS + IntOp(op)
    else if op == OpMod then FMOD_CODE
    else LOAD_DOUBLES + [Farith(op)] + STORE_DOUBLE
  }

  function JumpCond(op: RelOp): Cond {
    match op
    case RelEqu => E
    case RelDiff => NE
    case RelSupe => AE
    case RelInfe => BE
    case RelInf => B
    case RelSup => A
  }

  function CompareCode(t: Ty): seq<Instr> {
    if t.TDouble? then LOAD_DOUBLES + [Fcomip, FpopTop] else POP_INTS + [CmpReg]
  }

  function Materialise(c: Cond, tag: nat): seq<Instr> {
    [Jcc(c, LTrue(tag)), PushImm(0), Jmp(LNext(tag)), Def(LTrue(tag)), PushImm(ONES), Def(LNext(tag))]
  }

  function RelCode(op: RelOp, t: Ty, tag: nat): seq<Instr> {
    CompareCode(t) + Materialise(JumpCond(op), tag)
  }

  function ConvCode(from: Ty, to: Ty): seq<Instr> {
    if from.TInt? && to.TDouble? then [Fild, Fstp]
    else if from.TDouble? && to.TInt? then [Fld(0), Fistp]
    else []
  }

  const LOAD_POINTED: seq<Instr> := [PopReg(RAX), PushInd]
  const STORE_POINTED: seq<Instr> := [PopReg(RAX), PopReg(RBX), MovInd]

  function LoadChain(k: nat): seq<Instr> {
    if k == 0 then [] else LOAD_POINTED + LoadChain(k - 1)
  }

  /** The store of an assignment through `k` carets. */
  function StoreCode(x: Name, k: nat): seq<Instr> {
    if k == 0 then [PopVar(x)] else [PushVar(x)] + LoadChain(k - 1) + STORE_POINTED
  }

  function Branch(l: Label): seq<Instr> {
    [PopReg(RAX), TestReg, Jcc(Z, l)]
  }

  function FormatOf(t: Ty): Format {
    if t.TChar? then FmtChar else if t.TDouble? then FmtFloat else FmtUnsigned
  }

  function DisplayCode(t: Ty): seq<Instr> {
    [LeaFormat(FormatOf(t), RDI)] + PopArg(t, 1, 0)
    + [MovbAl(if t.TDouble? then 1 else 0)] + AlignedCall(CallPrintf)
  }

  /** Code and the label counter after it. */
  datatype Frag = Frag(code: seq<Instr>, tag: nat)

  function ExprCode(c: Scope, e: Expr, tag: nat): (r: Frag)
    ensures r.tag >= tag
    decreases e, 1
  {
    match e
    case Lit(t) => Frag(if IsLiteral(t) then LoadImm(LiteralWord(t)) else [], tag)
    case Var(x) => Frag([PushVar(x)], tag)
    case Ref(x) => Frag([LeaVar(x), PushReg(RAX)], tag)
    case Deref(a) => var fa := ExprCode(c, a, tag); Frag(fa.code + LOAD_POINTED, fa.tag)
    case Negate(a) => var fa := ExprCode(c, a, tag); Frag(fa.code + [NotTop], fa.tag)
    case Paren(a) => ExprCode(c, a, tag)
    case Bin(op, l, _) =>
      var f := OperandsCode(c, e, tag);
      Frag(f.code + BinCode(op, TyOf(c, l)), f.tag)
    case Rel(op, l, _) =>
      var f := OperandsCode(c, e, tag);
      Frag(f.code + RelCode(op, TyOf(c, l), f.tag + 1), f.tag + 1)
    case Conv(a, te) =>
      var fa := ExprCode(c, a, tag);
      var to := Resolve(c.aliases, te);
      Frag(fa.code + (if to.Some? then ConvCode(TyOf(c, a), to.value) else []), fa.tag)
    case Call(f, args) =>
      var fa := ArgsCode(c, args, tag, 0, 0);
      Frag(fa.code + (if f in c.funcs then FinishCall(f, c.funcs[f].ret) else []), fa.tag)
  }

  function OperandsCode(c: Scope, e: Expr, tag: nat): (r: Frag)
    requires e.Bin? || e.Rel?
    ensures r.tag >= tag
    decreases e, 0
  {
    var fl := ExprCode(c, e.l, tag);
    var fr := ExprCode(c, e.r, fl.tag);
    Frag(fl.code + fr.code, fr.tag)
  }

  function ArgsCode(c: Scope, args: seq<Expr>, tag: nat, ri: nat, fi: nat): (r: Frag)
    ensures r.tag >= tag
    decreases args, 2
  {
    if args == [] then Frag([], tag)
    else
      var t := TyOf(c, args[0]);
      var fa := ExprCode(c, args[0], tag);
      var fs := if t.TDouble? then ArgsCode(c, args[1..], fa.tag, ri, fi + 1)
                else ArgsCode(c, args[1..], fa.tag, ri + 1, fi);
      Frag(fa.code + PopArg(t, ri, fi) + fs.code, fs.tag)
  }

  lemma ArgsCodeCons(c: Scope, args: seq<Expr>, t: Ty, tag: nat, ri: nat, fi: nat)
    requires args != [] && CheckExpr(c, args[0]) == Some(t)
    ensures var fa := ExprCode(c, args[0], tag);
      var fs := ArgsCode(c, args[1..], fa.tag, if t.TDouble? then ri else ri + 1, if t.TDouble? then fi + 1 else fi);
      ArgsCode(c, args, tag, ri, fi) == Frag(fa.code + PopArg(t, ri, fi) + fs.code, fs.tag)
    ensures ArgsCode(c, [], tag, ri, fi) == Frag([], tag)
  {
    hide PopArg, ExprCode, CheckExpr;
  }

  function StmtCode(c: Scope, s: Stmt, tag: nat): (r: Frag)
    ensures r.tag >= tag
    decreases s
  {
    match s
    case Assignment(x, k, e) =>
      var fe := ExprCode(c, e, tag);
      Frag(fe.code + StoreCode(x, k), fe.tag)
    case IfElse(e, t, f) =>
      var fe := ExprCode(c, e, tag + 1);
      var ft := StmtCode(c, t, fe.tag);
      var ff := StmtCode(c, f, ft.tag);
      Frag(fe.code + Branch(LFalse(tag + 1)) + [Def(LTrue(tag + 1))] + ft.code
           + [Jmp(LNext(tag + 1)), Def(LFalse(tag + 1))] + ff.code + [Def(LNext(tag + 1))], ff.tag)
    case IfOnly(e, t) =>
      var fe := ExprCode(c, e, tag + 1);
      var ft := StmtCode(c, t, fe.tag);
      Frag(fe.code + Branch(LFalse(tag + 1)) + [Def(LTrue(tag + 1))] + ft.code
           + [Def(LFalse(tag + 1)), Def(LNext(tag + 1))], ft.tag)
    case Loop(e, b) =>
      var fe := ExprCode(c, e, tag + 1);
      var fb := StmtCode(c, b, fe.tag);
      Frag([Def(LWhile(tag + 1))] + fe.code + Branch(LNext(tag + 1)) + fb.code
           + [Jmp(LWhile(tag + 1)), Def(LNext(tag + 1))], fb.tag)
    case ForTo(x, k, from, to, b) =>
      var f0 := ExprCode(c, from, tag);
      var t := f0.tag + 1;
      var f1 := ExprCode(c, to, t);
      var fb := StmtCode(c, b, f1.tag);
      Frag(f0.code + StoreCode(x, k) + [Def(LFor(t))] + f1.code
           + [PopReg(RAX), CmpVar(x), Jcc(L, LNext(t))] + fb.code
           + [IncVar(x), Jmp(LFor(t)), Def(LNext(t))], fb.tag)
    case Block(ss, _) => StmtsCode(c, ss, tag)
    case Show(e) =>
      var fe := ExprCode(c, e, tag);
      Frag(fe.code + DisplayCode(TyOf(c, e)), fe.tag)
    case CallStmt(f, args) =>
      var fa := ArgsCode(c, args, tag, 0, 0);
      Frag(fa.code + (if f in c.funcs then FinishCall(f, c.funcs[f].ret) else []), fa.tag)
  }

  function StmtsCode(c: Scope, ss: seq<Stmt>, tag: nat): (r: Frag)
    ensures r.tag >= tag
    decreases ss
  {
    if ss == [] then Frag([], tag)
    else
      var f := StmtCode(c, ss[0], tag);
      var fs := StmtsCode(c, ss[1..], f.tag);
      Frag(f.code + fs.code, fs.tag)
  }

  /** The main procedure. */
  function MainCode(c: Scope, body: Stmt): seq<Instr> {
    [RspToRbp] + StmtCode(c, body, 0).code + [RbpToRsp, Ret]
  }
}
