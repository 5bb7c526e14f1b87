/** The emitter: methods that append instructions and draw labels, each tied to the pure sequences. */
module CodeGenerator {
  import opened Words
  import opened Syntax
  import opened Typing
  import opened Machine
  import opened Emission
  import opened TypeTable

  class IfStatement {
    var savedTag: nat
    constructor () { savedTag := 0; }
  }

  class WhileStatement {
    var savedTag: nat
    constructor () { savedTag := 0; }
  }

  class ForStatement {
    var savedTag: nat
    var variable: Name
    constructor (x: Name) { savedTag, variable := 0, x; }
  }

  class FunctionCall {
    var regularCount: nat
    var floatCount: nat
    var functionName: Name
    var returnType: int
    var variadic: bool

    constructor (name: Name, ret: int, variadic: bool)
      ensures regularCount == 0 && floatCount == 0
      ensures functionName == name && returnType == ret && this.variadic == variadic
    {
      regularCount, floatCount := 0, 0;
      functionName, returnType, this.variadic := name, ret, variadic;
    }
  }

  predicate IsRegularParam(t: int) {
    t == UNSIGNED_INT || t == CHAR || t == BOOLEAN
  }

  /** The type an identifier has for a call result: VOID is no result. */
  function ResultOf(id: int): Option<Ty>
    requires id == VOID || IsBuiltin(id)
  {
    if id == VOID then None else Some(BuiltinOf(id))
  }

  class CodeGen {
    var output: seq<Instr>
    var labelTag: nat

    constructor ()
      ensures output == [] && labelTag == 0
    {
      output, labelTag := [], 0;
    }

    method Emit(code: seq<Instr>)
      modifies this`output
      ensures output == old(output) + code
    {
      output := output + code;
    }

    method BeginMainProcedure()
      modifies this`output
      ensures output == old(output) + [RspToRbp]
    {
      Emit([RspToRbp]);
    }

    method FinalizeMainProcedure()
      modifies this`output
      ensures output == old(output) + [RbpToRsp, Ret]
    {
      Emit([RbpToRsp, Ret]);
    }

    method LoadVariable(x: Name)
      modifies this`output
      ensures output == old(output) + [PushVar(x)]
    {
      Emit([PushVar(x)]);
    }

    method LoadI64(value: Word)
      modifies this`output
      ensures output == old(output) + LoadImm(value)
    {
      if value / 0x1_0000_0000 != 0 {
        Emit([MovImm(value, RAX), PushReg(RAX)]);
      } else {
        Emit([PushImm(value)]);
      }
    }

    method LoadPointerToVariable(x: Name)
      modifies this`output
      ensures output == old(output) + [LeaVar(x), PushReg(RAX)]
    {
      Emit([LeaVar(x), PushReg(RAX)]);
    }

    method LoadValueFromPointer()
      modifies this`output
      ensures output == old(output) + LOAD_POINTED
    {
      Emit([PopReg(RAX), PushInd]);
    }

    method StoreVariable(x: Name)
      modifies this`output
      ensures output == old(output) + [PopVar(x)]
    {
      Emit([PopVar(x)]);
    }

    method StoreValueToPointer()
      modifies this`output
      ensures output == old(output) + STORE_POINTED
    {
      Emit([PopReg(RAX), PopReg(RBX), MovInd]);
    }

    /** Fails on a type without binary operations. */
    method AluLoadBinop(t: int) returns (ok: bool)
      modifies this`output
      ensures ok <==> t == UNSIGNED_INT || t == BOOLEAN || t == DOUBLE
      ensures ok ==> output == old(output) + LoadBinop(BuiltinOf(t))
    {
      ok := true;
      if t == UNSIGNED_INT || t == BOOLEAN {
        Emit([PopReg(RBX), PopReg(RAX)]);
      } else if t == DOUBLE {
        Emit([Fld(0), Fld(1), AddRsp(16)]);
      } else {
        ok := false;
      }
    }

    method AluStoreF64()
      modifies this`output
      ensures output == old(output) + STORE_DOUBLE
    {
      Emit([AddRsp(-8), Fstp]);
    }

    method AluAndBool()
      modifies this`output
      ensures output == old(output) + BinCode(OpAnd, TBool)
    {
      var _ := AluLoadBinop(BOOLEAN);
      Emit([AndReg, PushReg(RAX)]);
    }

    method AluOrBool()
      modifies this`output
      ensures output == old(output) + BinCode(OpOr, TBool)
    {
      var _ := AluLoadBinop(BOOLEAN);
      Emit([OrReg, PushReg(RAX)]);
    }

    method AluNotBool()
      modifies this`output
      ensures output == old(output) + [NotTop]
    {
      Emit([NotTop]);
    }

    method AluAdd(t: int) returns (ok: bool)
      modifies this`output
      ensures ok <==> t == UNSIGNED_INT || t == DOUBLE
      ensures ok ==> output == old(output) + BinCode(OpAdd, BuiltinOf(t))
    {
      ok := AluLoadBinop(t);
      if t == UNSIGNED_INT {
        Emit([AddReg, PushReg(RAX)]);
      } else if t == DOUBLE {
        Emit([Farith(OpAdd)]);
        AluStoreF64();
      } else {
        ok := false;
      }
    }

    method AluSub(t: int) returns (ok: bool)
      modifies this`output
      ensures ok <==> t == UNSIGNED_INT || t == DOUBLE
      ensures ok ==> output == old(output) + BinCode(OpSub, BuiltinOf(t))
    {
      ok := AluLoadBinop(t);
      if t == UNSIGNED_INT {
        Emit([SubReg, PushReg(RAX)]);
      } else if t == DOUBLE {
        Emit([Farith(OpSub)]);
        AluStoreF64();
      } else {
        ok := false;
      }
    }

    method AluMultiply(t: int) returns (ok: bool)
      modifies this`output
      ensures ok <==> t == UNSIGNED_INT || t == DOUBLE
      ensures ok ==> output == old(output) + BinCode(OpMul, BuiltinOf(t))
    {
      ok := AluLoadBinop(t);
      if t == UNSIGNED_INT {
        Emit([MulReg, PushReg(RAX)]);
      } else if t == DOUBLE {
        Emit([Farith(OpMul)]);
        AluStoreF64();
      } else {
        ok := false;
      }
    }

    method AluDivide(t: int) returns (ok: bool)
      modifies this`output
      ensures ok <==> t == UNSIGNED_INT || t == DOUBLE
      ensures ok ==> output == old(output) + BinCode(OpDiv, BuiltinOf(t))
    {
      ok := AluLoadBinop(t);
      if t == UNSIGNED_INT {
        Emit([MovImm(0, RDX), DivReg, PushReg(RAX)]);
      } else if t == DOUBLE {
        Emit([Farith(OpDiv)]);
        AluStoreF64();
      } else {
        ok := false;
      }
    }

    method AluModulus(t: int) returns (ok: bool)
      modifies this`output
      ensures ok <==> t == UNSIGNED_INT || t == DOUBLE
      ensures ok ==> output == old(output) + BinCode(OpMod, BuiltinOf(t))
    {
      ok := true;
      if t == UNSIGNED_INT {
        ok := AluLoadBinop(t);
        Emit([MovImm(0, RDX), DivReg, PushReg(RAX)]);
      } else if t == DOUBLE {
        var call := new FunctionCall(FMOD, DOUBLE, false);
        ok := FunctionCallParam(call, DOUBLE);
        ok := FunctionCallParam(call, DOUBLE);
        Emit([Pxor(0, 1), Pxor(1, 0), Pxor(0, 1)]);
        ok := FunctionCallFinalize(call);
      } else {
        ok := false;
      }
    }

    method AluCompare(t: int, jump: Cond) returns (ok: bool)
      modifies this
      ensures ok <==> t == UNSIGNED_INT || t == DOUBLE
      ensures ok ==> labelTag == old(labelTag) + 1
      ensures ok ==> output == old(output) + (CompareCode(BuiltinOf(t)) + Materialise(jump, labelTag))
    {
      ok := AluLoadBinop(t);
      if t == UNSIGNED_INT {
        Emit([CmpReg]);
      } else if t == DOUBLE {
        Emit([Fcomip, FpopTop]);
      } else {
        ok := false;
        return;
      }
      labelTag := labelTag + 1;
      Emit([Jcc(jump, LTrue(labelTag)), PushImm(0), Jmp(LNext(labelTag)), Def(LTrue(labelTag)), PushImm(ONES),
            Def(LNext(labelTag))]);
    }

    /** Fails where the source type has no conversion to the destination. */
    method Convert(source: int, destination: int) returns (ok: bool)
      requires IsBuiltin(source) && IsBuiltin(destination)
      modifies this`output
      ensures ok <==> Convertible(BuiltinOf(source), BuiltinOf(destination))
      ensures ok ==> output == old(output) + ConvCode(BuiltinOf(source), BuiltinOf(destination))
    {
      ok := true;
      if source == destination {
        return;
      }
      if source == UNSIGNED_INT || destination == CHAR {
        if destination == UNSIGNED_INT || destination == CHAR {
          return;
        }
        if destination == DOUBLE {
          Emit([Fild, Fstp]);
          return;
        }
      }
      if source == DOUBLE {
        if destination == UNSIGNED_INT || destination == CHAR {
          Emit([Fld(0), Fistp]);
          return;
        }
      }
      ok := false;
    }

    method StatementIfPrepare(s: IfStatement)
      modifies this`labelTag, s
      ensures labelTag == old(labelTag) + 1 && s.savedTag == labelTag
    {
      labelTag := labelTag + 1;
      s.savedTag := labelTag;
    }

    method StatementIfPostCheck(s: IfStatement)
      modifies this`output
      ensures output == old(output) + (Branch(LFalse(s.savedTag)) + [Def(LTrue(s.savedTag))])
    {
      Emit([PopReg(RAX), TestReg, Jcc(Z, LFalse(s.savedTag)), Def(LTrue(s.savedTag))]);
    }

    method StatementIfWithElse(s: IfStatement)
      modifies this`output
      ensures output == old(output) + [Jmp(LNext(s.savedTag)), Def(LFalse(s.savedTag))]
    {
      Emit([Jmp(LNext(s.savedTag)), Def(LFalse(s.savedTag))]);
    }

    method StatementIfWithoutElse(s: IfStatement)
      modifies this`output
      ensures output == old(output) + [Def(LFalse(s.savedTag))]
    {
      Emit([Def(LFalse(s.savedTag))]);
    }

    method StatementIfFinalize(s: IfStatement)
      modifies this`output
      ensures output == old(output) + [Def(LNext(s.savedTag))]
    {
      Emit([Def(LNext(s.savedTag))]);
    }

    method StatementWhilePrepare(s: WhileStatement)
      modifies this, s
      ensures labelTag == old(labelTag) + 1 && s.savedTag == labelTag
      ensures output == old(output) + [Def(LWhile(s.savedTag))]
    {
      labelTag := labelTag + 1;
      s.savedTag := labelTag;
      Emit([Def(LWhile(s.savedTag))]);
    }

    method StatementWhilePostCheck(s: WhileStatement)
      modifies this`output
      ensures output == old(output) + Branch(LNext(s.savedTag))
    {
      Emit([PopReg(RAX), TestReg, Jcc(Z, LNext(s.savedTag))]);
    }

    method StatementWhileFinalize(s: WhileStatement)
      modifies this`output
      ensures output == old(output) + [Jmp(LWhile(s.savedTag)), Def(LNext(s.savedTag))]
    {
      Emit([Jmp(LWhile(s.savedTag)), Def(LNext(s.savedTag))]);
    }

    method StatementForPrepare(s: ForStatement, x: Name)
      modifies this`labelTag, s
      ensures labelTag == old(labelTag) + 1 && s.savedTag == labelTag && s.variable == x
    {
      s.variable := x;
      labelTag := labelTag + 1;
      s.savedTag := labelTag;
    }

    method StatementForPostAssignment(s: ForStatement)
      modifies this`output
      ensures output == old(output) + [Def(LFor(s.savedTag))]
    {
      Emit([Def(LFor(s.savedTag))]);
    }

    method StatementForPostCheck(s: ForStatement)
      modifies this`output
      ensures output == old(output) + [PopReg(RAX), CmpVar(s.variable), Jcc(L, LNext(s.savedTag))]
    {
      Emit([PopReg(RAX), CmpVar(s.variable), Jcc(L, LNext(s.savedTag))]);
    }

    method StatementForFinalize(s: ForStatement)
      modifies this`output
      ensures output == old(output) + [IncVar(s.variable), Jmp(LFor(s.savedTag)), Def(LNext(s.savedTag))]
    {
      Emit([IncVar(s.variable), Jmp(LFor(s.savedTag)), Def(LNext(s.savedTag))]);
    }

    /** Fails on a type that no register takes, and when the registers have run out. */
    method FunctionCallRegister(call: FunctionCall, t: int) returns (ok: bool, r: Reg)
      ensures ok <==> (IsRegularParam(t) && call.regularCount < 6) || (t == DOUBLE && call.floatCount < 8)
      ensures ok && t == DOUBLE ==> r == XMM(call.floatCount)
      ensures ok && t != DOUBLE ==> r == [RDI, RSI, RDX, RCX, R8, R9][call.regularCount]
    {
      ok, r := false, RDI;
      if IsRegularParam(t) {
        ok := call.regularCount < 6;
        match call.regularCount
        case 0 => r := RDI;
        case 1 => r := RSI;
        case 2 => r := RDX;
        case 3 => r := RCX;
        case 4 => r := R8;
        case _ => r := R9;
      } else if t == DOUBLE {
        ok := call.floatCount < 8;
        r := XMM(call.floatCount);
      }
    }

    method FunctionCallParam(call: FunctionCall, t: int) returns (ok: bool)
      modifies this`output, call`regularCount, call`floatCount
      ensures ok <==> (IsRegularParam(t) && old(call.regularCount) < 6) || (t == DOUBLE && old(call.floatCount) < 8)
      ensures ok ==> output == old(output) + PopArg(BuiltinOf(t), old(call.regularCount), old(call.floatCount))
      ensures ok ==> call.regularCount == old(call.regularCount) + (if t == DOUBLE then 0 else 1)
      ensures ok ==> call.floatCount == old(call.floatCount) + (if t == DOUBLE then 1 else 0)
    {
      var r;
      ok, r := FunctionCallRegister(call, t);
      if !ok {
        return;
      }
      if t == BOOLEAN {
        Emit([PopReg(r), AndOne(r)]);
        call.regularCount := call.regularCount + 1;
      } else if IsRegularParam(t) {
        Emit([PopReg(r)]);
        call.regularCount := call.regularCount + 1;
      } else {
        Emit([MovsdLoad(call.floatCount), AddRsp(8)]);
        call.floatCount := call.floatCount + 1;
      }
    }

    method AlignStack()
      modifies this`output
      ensures output == old(output) + ALIGN
    {
      Emit([RspToR12, AndR12, AndRsp]);
    }

    method UnalignStack()
      modifies this`output
      ensures output == old(output) + [OrR12Rsp]
    {
      Emit([OrR12Rsp]);
    }

    /** Fails on a result that is BOOLEAN or a pointer. `printf` is the only variadic callee. */
    method FunctionCallFinalize(call: FunctionCall) returns (ok: bool)
      modifies this`output
      ensures ok <==> call.returnType in {VOID, UNSIGNED_INT, CHAR, DOUBLE}
      ensures ok && !call.variadic ==> output == old(output) + FinishCall(call.functionName, ResultOf(call.returnType))
      ensures ok && call.variadic && call.returnType == VOID ==>
                output == old(output) + ([MovbAl(call.floatCount)] + AlignedCall(CallPrintf))
    {
      ok := true;
      if call.variadic {
        Emit([MovbAl(call.floatCount)]);
      }
      AlignStack();
      Emit([if call.variadic then CallPrintf else CallForeign(call.functionName)]);
      UnalignStack();
      if call.returnType == BOOLEAN {
        ok := false;
      } else if IsRegularParam(call.returnType) {
        Emit([PushReg(RAX)]);
      } else if call.returnType == DOUBLE {
        Emit([AddRsp(-8), MovsdStore]);
      } else if call.returnType != VOID {
        ok := false;
      }
    }

    method DebugDisplay(t: int) returns (ok: bool)
      modifies this`output
      ensures ok <==> IsBuiltin(t)
      ensures ok ==> output == old(output) + DisplayCode(BuiltinOf(t))
    {
      if !IsBuiltin(t) {
        return false;
      }
      var call := new FunctionCall(Id("printf"), VOID, true);
      Emit([LeaFormat(FormatOf(BuiltinOf(t)), RDI)]);
      call.regularCount := call.regularCount + 1;
      ok := FunctionCallParam(call, t);
      ok := FunctionCallFinalize(call);
    }
  }
}
