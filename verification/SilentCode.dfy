/** Which emitted code writes data memory: no expression does, and a store does with its last instruction
    only. */
module SilentCode {
  import opened Syntax
  import opened Typing
  import opened Machine
  import opened Emission
  import opened Simulation
  import opened Isolation

  ghost predicate Silent(code: seq<Instr>) {
    forall i :: 0 <= i < |code| ==> !Writes(code[i])
  }

  lemma SilentPlus(a: seq<Instr>, b: seq<Instr>)
    requires Silent(a) && Silent(b)
    ensures Silent(a + b)
  {
    forall i | 0 <= i < |a + b| ensures !Writes((a + b)[i]) {
      assert (a + b)[i] == if i < |a| then a[i] else b[i - |a|];
    }
  }

  lemma PopArgSilent(t: Ty, ri: nat, fi: nat)
    ensures Silent(PopArg(t, ri, fi))
  {}

  lemma AlignedSilent(i: Instr)
    requires !Writes(i)
    ensures Silent(AlignedCall(i))
  {
    SilentPlus(ALIGN, [i, OrR12Rsp]);
  }

  lemma FinishSilent(f: Name, ret: Option<Ty>)
    ensures Silent(FinishCall(f, ret))
  {
    AlignedSilent(CallForeign(f));
    SilentPlus(AlignedCall(CallForeign(f)), PushResult(ret));
  }

  lemma BinSilent(op: BinOp, t: Ty)
    ensures Silent(BinCode(op, t))
  {
    hide FinishCall, PopArg;
    SilentPlus(POP_INTS, IntOp(op));
    PopArgSilent(TDouble, 0, 0);
    PopArgSilent(TDouble, 0, 1);
    FinishSilent(FMOD, Some(TDouble));
    SilentPlus(PopArg(TDouble, 0, 0), PopArg(TDouble, 0, 1));
    SilentPlus(PopArg(TDouble, 0, 0) + PopArg(TDouble, 0, 1), SWAP_XMM);
    SilentPlus(PopArg(TDouble, 0, 0) + PopArg(TDouble, 0, 1) + SWAP_XMM, FinishCall(FMOD, Some(TDouble)));
    SilentPlus(LOAD_DOUBLES, [Farith(op)]);
    SilentPlus(LOAD_DOUBLES + [Farith(op)], STORE_DOUBLE);
  }

  lemma RelSilent(op: RelOp, t: Ty, tag: nat)
    ensures Silent(RelCode(op, t, tag))
  {
    SilentPlus(LOAD_DOUBLES, [Fcomip, FpopTop]);
    SilentPlus(POP_INTS, [CmpReg]);
    SilentPlus(CompareCode(t), Materialise(JumpCond(op), tag));
  }

  lemma DisplaySilent(t: Ty)
    ensures Silent(DisplayCode(t))
  {
    hide PopArg, AlignedCall;
    var f, k := [LeaFormat(FormatOf(t), RDI)], [MovbAl(if t.TDouble? then 1 else 0)];
    PopArgSilent(t, 1, 0);
    AlignedSilent(CallPrintf);
    SilentPlus(f, PopArg(t, 1, 0));
    SilentPlus(f + PopArg(t, 1, 0), k);
    SilentPlus(f + PopArg(t, 1, 0) + k, AlignedCall(CallPrintf));
  }

  /** No expression writes memory. */
  lemma {:induction false} ExprSilent(c: Scope, e: Expr, tag: nat)
    ensures Silent(ExprCode(c, e, tag).code)
    decreases e, 1
  {
    hide Silent, BinCode, RelCode, FinishCall;
    match e
    case Lit(t) => PlainSilent(c, e, tag);
    case Var(_) => PlainSilent(c, e, tag);
    case Ref(_) => PlainSilent(c, e, tag);
    case Paren(a) => ExprSilent(c, a, tag);
    case Deref(a) =>
      ExprSilent(c, a, tag);
      EndsSilent();
      SilentPlus(ExprCode(c, a, tag).code, LOAD_POINTED);
    case Negate(a) =>
      ExprSilent(c, a, tag);
      EndsSilent();
      SilentPlus(ExprCode(c, a, tag).code, [NotTop]);
    case Conv(a, te) =>
      var to := Resolve(c.aliases, te);
      ExprSilent(c, a, tag);
      ConvSilent(TyOf(c, a), to);
      SilentPlus(ExprCode(c, a, tag).code, if to.Some? then ConvCode(TyOf(c, a), to.value) else []);
    case Bin(op, l, _) =>
      OperandsSilent(c, e, tag);
      BinSilent(op, TyOf(c, l));
      SilentPlus(OperandsCode(c, e, tag).code, BinCode(op, TyOf(c, l)));
    case Rel(op, l, _) =>
      var f := OperandsCode(c, e, tag);
      OperandsSilent(c, e, tag);
      RelSilent(op, TyOf(c, l), f.tag + 1);
      SilentPlus(f.code, RelCode(op, TyOf(c, l), f.tag + 1));
    case Call(f, args) =>
      ArgsSilent(c, args, tag, 0, 0);
      CallSilent(c, f);
      SilentPlus(ArgsCode(c, args, tag, 0, 0).code, if f in c.funcs then FinishCall(f, c.funcs[f].ret) else []);
  }

  lemma PlainSilent(c: Scope, e: Expr, tag: nat)
    requires e.Lit? || e.Var? || e.Ref?
    ensures Silent(ExprCode(c, e, tag).code)
  {}

  lemma EndsSilent()
    ensures Silent(LOAD_POINTED) && Silent([NotTop])
  {}

  lemma ConvSilent(from: Ty, to: Option<Ty>)
    ensures Silent(if to.Some? then ConvCode(from, to.value) else [])
  {}

  lemma CallSilent(c: Scope, f: Name)
    ensures Silent(if f in c.funcs then FinishCall(f, c.funcs[f].ret) else [])
  {
    hide FinishCall;
    if f in c.funcs {
      FinishSilent(f, c.funcs[f].ret);
    }
  }

  lemma {:induction false} OperandsSilent(c: Scope, e: Expr, tag: nat)
    requires e.Bin? || e.Rel?
    ensures Silent(OperandsCode(c, e, tag).code)
    decreases e, 0
  {
    hide Silent;
    var fl := ExprCode(c, e.l, tag);
    ExprSilent(c, e.l, tag);
    ExprSilent(c, e.r, fl.tag);
    SilentPlus(fl.code, ExprCode(c, e.r, fl.tag).code);
  }

  lemma {:induction false} ArgsSilent(c: Scope, args: seq<Expr>, tag: nat, ri: nat, fi: nat)
    ensures Silent(ArgsCode(c, args, tag, ri, fi).code)
    decreases args, 2
  {
    hide PopArg, Writes;
    if args != [] {
      var t := TyOf(c, args[0]);
      var fa := ExprCode(c, args[0], tag);
      var ri', fi' := if t.TDouble? then ri else ri + 1, if t.TDouble? then fi + 1 else fi;
      ExprSilent(c, args[0], tag);
      PopArgSilent(t, ri, fi);
      ArgsSilent(c, args[1..], fa.tag, ri', fi');
      SilentPlus(fa.code, PopArg(t, ri, fi));
      SilentPlus(fa.code + PopArg(t, ri, fi), ArgsCode(c, args[1..], fa.tag, ri', fi').code);
      assert ArgsCode(c, args, tag, ri, fi).code
          == fa.code + PopArg(t, ri, fi) + ArgsCode(c, args[1..], fa.tag, ri', fi').code;
    }
  }

  lemma {:induction false} ChainSilent(k: nat)
    ensures Silent(LoadChain(k))
  {
    hide Writes;
    if k > 0 {
      EndsSilent();
      ChainSilent(k - 1);
      SilentPlus(LOAD_POINTED, LoadChain(k - 1));
    }
  }

  /** A store writes memory with its last instruction only. */
  lemma StoreSilent(x: Name, k: nat) returns (init: seq<Instr>, last: Instr)
    ensures StoreCode(x, k) == init + [last] && Silent(init)
  {
    hide LoadChain;
    if k == 0 {
      init, last := [], PopVar(x);
    } else {
      init, last := [PushVar(x)] + LoadChain(k - 1) + [PopReg(RAX), PopReg(RBX)], MovInd;
      ChainSilent(k - 1);
      SilentPlus([PushVar(x)], LoadChain(k - 1));
      SilentPlus([PushVar(x)] + LoadChain(k - 1), [PopReg(RAX), PopReg(RBX)]);
    }
  }

  lemma QuietCode(P: seq<Instr>, pc: int, code: seq<Instr>, to: int)
    requires CodeAt(P, pc, code) && Silent(code) && (0 <= to < |P| ==> !Writes(P[to])) && to != pc + |code|
    ensures Quiet(P, pc, pc + |code|, to)
  {
    forall i | pc <= i < pc + |code| - 1 && 0 <= i < |P| ensures !Writes(P[i]) {
      assert P[pc + (i - pc)] == code[i - pc];
    }
  }

  lemma QuietStore(P: seq<Instr>, pc: int, init: seq<Instr>, last: Instr)
    requires CodeAt(P, pc, init + [last]) && Silent(init)
    ensures Quiet(P, pc, pc + |init| + 1, -1)
  {
    forall i | pc <= i < pc + |init| && 0 <= i < |P| ensures !Writes(P[i]) {
      assert P[pc + (i - pc)] == (init + [last])[i - pc] == init[i - pc];
    }
  }
}
