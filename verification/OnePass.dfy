/** The one-pass parser: it checks types and emits code while it reads tokens, with no tree.
    Each method is proved against parsing to a tree, checking the tree and generating its code. */
module OnePass {
  import opened Syntax
  import opened Typing
  import opened Machine
  import opened Emission
  import opened Grammar
  import opened TypeTable
  import opened CodeGenerator
  import opened FrontEnd
  import opened StatementTrees
  import opened Declarations
  import opened DeclaredTables

  class Compiler {
    const codegen: CodeGen
    const files: map<string, seq<Token>>
    var tokens: seq<Token>
    var fileNames: seq<string>
    var variables: map<Name, int>
    var typedefs: map<Name, int>
    var functions: map<Name, Function>
    var includes: set<string>
    var types: Types

    constructor (fileName: string, source: seq<Token>, files: map<string, seq<Token>>)
      ensures Valid() && tokens == source && this.files == files && fresh(codegen)
      ensures codegen.output == [] && codegen.labelTag == 0
      ensures variables == map[] && typedefs == map[] && functions == map[] && includes == {} && types == NO_TYPES
      ensures fileNames == [fileName] && Now() == Tables(EMPTY_SCOPE, {})
    {
      codegen := new CodeGen();
      this.files := files;
      tokens, fileNames := source, [fileName];
      variables, typedefs, functions, includes, types := map[], map[], map[], {}, NO_TYPES;
    }

    ghost predicate Valid()
      reads this
    {
      ValidTables(types, variables, typedefs, functions)
    }

    /** The symbol tables as structures. */
    ghost function Sc(): Scope
      requires Valid()
      reads this
    {
      ScopeOf(types, variables, typedefs, functions)
    }

    /** What statements and expressions never change. */
    function Declared(): (map<Name, int>, map<Name, int>, map<Name, Function>, set<string>, seq<string>)
      reads this
    {
      (variables, typedefs, functions, includes, fileNames)
    }

    /** Success is exactly a parse whose tree checks; then the parser stands behind the tree, the
        type returned is its type and the output has grown by its code. */
    ghost predicate Took(ok: bool, t: int, r: Parsed<Expr>, sc: Scope, out: seq<Instr>, tag: nat)
      reads this, codegen
    {
      && (ok <==> r.Got? && CheckExpr(sc, r.v).Some?)
      && (ok ==>
        && tokens == r.rest && ValidId(types, t) && Den(types, t) == CheckExpr(sc, r.v)
        && codegen.output == out + ExprCode(sc, r.v, tag).code && codegen.labelTag == ExprCode(sc, r.v, tag).tag)
    }

    lemma EntryValid(x: Name)
      requires Valid()
      ensures x in variables ==> ValidId(types, variables[x])
      ensures x in typedefs ==> ValidId(types, typedefs[x])
      ensures x in functions ==> ValidFunction(types, functions[x])
      ensures ValidTypes(types)
    {}

    /** Reads the next token. */
    method ReadToken()
      modifies this`tokens
      ensures tokens == Advance(old(tokens))
    {
      if tokens != [] {
        tokens := tokens[1..];
      }
    }

    /** Skips an expected token. */
    method TryReadToken(t: Token) returns (found: bool)
      modifies this`tokens
      ensures found <==> Peek(old(tokens)) == t
      ensures tokens == if found then Advance(old(tokens)) else old(tokens)
    {
      found := Peek(tokens) == t;
      if found {
        ReadToken();
      }
    }

    /** The documented contract of type checking: the second operand may be the concept of an
        arithmetic type, the first must be concrete. */
    method CheckType(a: int, b: int) returns (ok: bool)
      ensures a == ARITHMETIC ==> !ok
      ensures a != ARITHMETIC && b != ARITHMETIC ==> (ok <==> a == b)
      ensures a != ARITHMETIC && b == ARITHMETIC ==> (ok <==> a == UNSIGNED_INT || a == DOUBLE)
    {
      if a == ARITHMETIC {
        return false;
      }
      if b == ARITHMETIC {
        ok := UNSIGNED_INT <= a <= DOUBLE;
      } else {
        ok := a == b;
      }
    }

    method CreateType(u: UserType) returns (id: int)
      requires Valid() && ValidId(types, u.target)
      modifies this`types
      ensures Valid() && Extends(old(types), types) && Sc() == old(Sc())
      ensures (types, id) == Intern(old(types), u)
      ensures ValidId(types, id) && Den(old(types), u.target).Some?
      ensures Den(types, id) == Some(TPtr(Den(old(types), u.target).value))
    {
      InternValid(types, u);
      ScopeStable(types, Intern(types, u).0, variables, typedefs, functions);
      EntryValid(Id(""));
      hide ValidTables, ScopeOf, Den, Intern;
      for k := FIRST_USER_DEFINED + 1 to types.last + 1
        invariant types == old(types)
        invariant forall i :: FIRST_USER_DEFINED < i < k ==> types.user[i] != u
      {
        if SameUserType(types.user[k], u) {
          InternKnown(types, u, k);
          return k;
        }
      }
      InternNew(types, u);
      id := types.last + 1;
      types := Types(types.user[id := u], id);
    }

    method ParseVariableReference() returns (ok: bool, t: int)
      requires Valid() && Peek(tokens) == At
      modifies this`tokens, this`types, codegen
      ensures Valid() && Declared() == old(Declared()) && Extends(old(types), types) && Sc() == old(Sc())
      ensures Took(ok, t, ParsePrimary(old(tokens)), old(Sc()), old(codegen.output), old(codegen.labelTag))
    {
      hide ValidTables, ScopeOf, Den, Intern, ParsePrimary, ExprCode, CheckExpr;
      RefTree(tokens, Sc(), codegen.labelTag);
      ReadToken();
      if !Peek(tokens).Id? {
        return false, VOID;
      }
      var x := Peek(tokens);
      ReadToken();
      ScopeEntries(types, variables, typedefs, functions, x);
      if x !in variables {
        return false, VOID;
      }
      EntryValid(x);
      t := CreateType(Pointer(variables[x]));
      codegen.LoadPointerToVariable(x);
      ok := true;
    }

    method ParseLiteral() returns (ok: bool, t: int)
      requires Valid() && IsLiteral(Peek(tokens))
      modifies this`tokens, codegen
      ensures Valid() && Declared() == old(Declared()) && types == old(types) && Sc() == old(Sc())
      ensures Took(ok, t, ParsePrimary(old(tokens)), old(Sc()), old(codegen.output), old(codegen.labelTag))
    {
      hide ValidTables, ScopeOf, ParsePrimary, ExprCode, CheckExpr;
      LiteralTree(tokens, Sc(), codegen.labelTag);
      var literal := Peek(tokens);
      codegen.LoadI64(LiteralWord(literal));
      ReadToken();
      ok := true;
      t := match literal
        case CharLit(_) => CHAR
        case FloatLit(_, _) => DOUBLE
        case IntLit(_, _) => UNSIGNED_INT;
    }

    method ParseVariableUsage(x: Name) returns (ok: bool, t: int)
      requires Valid()
      modifies codegen
      ensures ok <==> CheckExpr(Sc(), Var(x)).Some?
      ensures ok ==> ValidId(types, t) && Den(types, t) == CheckExpr(Sc(), Var(x))
      ensures ok ==> codegen.output == old(codegen.output) + [PushVar(x)] && codegen.labelTag == old(codegen.labelTag)
    {
      hide ValidTables, ScopeOf;
      ScopeEntries(types, variables, typedefs, functions, x);
      if x !in variables {
        return false, VOID;
      }
      EntryValid(x);
      codegen.LoadVariable(x);
      return true, variables[x];
    }

    method ParseTypeExpr() returns (ok: bool, t: int)
      requires Valid()
      modifies this`tokens, this`types
      ensures Valid() && Declared() == old(Declared()) && Extends(old(types), types) && Sc() == old(Sc())
      ensures var r := ParseType(old(tokens));
        && (ok <==> r.Got? && Resolve(old(Sc()).aliases, r.v).Some?)
        && (ok ==> tokens == r.rest && ValidId(types, t) && Den(types, t) == Resolve(old(Sc()).aliases, r.v))
        && (ok ==> (types, Some(t)) == InternExpr(old(types), typedefs, r.v))
      decreases |tokens|
    {
      hide ValidTables, ScopeOf, Intern;
      var token := Peek(tokens);
      if token.TypeName? {
        ReadToken();
        return true, BuiltinId(token.builtin);
      }
      if token.Id? {
        ScopeEntries(types, variables, typedefs, functions, token);
        if token !in typedefs {
          return false, VOID;
        }
        EntryValid(token);
        ReadToken();
        return true, typedefs[token];
      }
      var pointer := TryReadToken(Caret);
      if pointer {
        var target;
        ok, target := ParseTypeExpr();
        if !ok {
          return false, VOID;
        }
        t := CreateType(Pointer(target));
        return true, t;
      }
      return false, VOID;
    }

    /** A dereferencable, whatever its first token. */
    method ParseDereferencable() returns (ok: bool, t: int)
      requires Valid()
      modifies this`tokens, this`types, codegen
      ensures Valid() && Declared() == old(Declared()) && Extends(old(types), types) && Sc() == old(Sc())
      ensures Took(ok, t, ParsePrimary(old(tokens)), old(Sc()), old(codegen.output), old(codegen.labelTag))
      decreases |tokens|, 1
    {
      hide ValidTables, ScopeOf, ParsePrimary, ParseExpr, ParseFactor, ExprCode, CheckExpr;
      var token := Peek(tokens);
      if token == LParen {
        ParenTree(tokens, Sc(), codegen.labelTag);
        ReadToken();
        ok, t := ParseExpression();
        if ok {
          ok := TryReadToken(RParen);
        }
      } else if token == Bang {
        NegateTree(tokens, Sc(), codegen.labelTag);
        ReadToken();
        ok, t := ParseFactorMethod();
        if ok {
          TypesValid();
          DenKinds(types, t);
          ok := CheckType(t, BOOLEAN);
          codegen.AluNotBool();
        }
      } else if token == At {
        ok, t := ParseVariableReference();
      } else if IsLiteral(token) {
        ok, t := ParseLiteral();
      } else if token.Id? {
        ok, t := ParseFactorIdentifier();
      } else if token == KConvert {
        ok, t := ParseTypeCast();
      } else {
        OtherTree(tokens);
        ok, t := false, VOID;
      }
    }

    method ParseFactorIdentifier() returns (ok: bool, t: int)
      requires Valid() && Peek(tokens).Id?
      modifies this`tokens, this`types, codegen
      ensures Valid() && Declared() == old(Declared()) && Extends(old(types), types) && Sc() == old(Sc())
      ensures Took(ok, t, ParsePrimary(old(tokens)), old(Sc()), old(codegen.output), old(codegen.labelTag))
      decreases |tokens|, 0
    {
      hide ValidTables, ScopeOf, ParsePrimary, ParseArgs, ExprCode, CheckExpr, FinishCall, ArgsCode, Callable,
        CheckArgs;
      var name := Peek(tokens);
      ghost var before := tokens;
      ReadToken();
      if Peek(tokens) == LParen {
        CallTree(before, Sc(), codegen.labelTag);
        ok, t := ParseFunctionCallAfterIdentifier(name, true);
      } else {
        VarTree(before, Sc(), codegen.labelTag);
        ok, t := ParseVariableUsage(name);
      }
    }

    method ParseTypeCast() returns (ok: bool, t: int)
      requires Valid() && Peek(tokens) == KConvert
      modifies this`tokens, this`types, codegen
      ensures Valid() && Declared() == old(Declared()) && Extends(old(types), types) && Sc() == old(Sc())
      ensures Took(ok, t, ParsePrimary(old(tokens)), old(Sc()), old(codegen.output), old(codegen.labelTag))
      decreases |tokens|, 0
    {
      hide ValidTables, ScopeOf, ParsePrimary, ParseExpr, ParseType, ExprCode, CheckExpr, Resolve, ConvCode, Den,
        ValidTypes;
      ConvTree(tokens, Sc(), codegen.labelTag);
      ReadToken();
      var source;
      ok, source := ParseExpression();
      if !ok {
        return false, VOID;
      }
      ok := TryReadToken(KTo);
      if !ok {
        return false, VOID;
      }
      TypesValid();
      ghost var before := types;
      ok, t := ParseTypeExpr();
      if !ok {
        return false, VOID;
      }
      TypesValid();
      DenExtends(before, types, source);
      DenKinds(types, source);
      DenKinds(types, t);
      if IsUserDefined(source) || IsUserDefined(t) {
        return false, VOID;
      }
      ok := codegen.Convert(source, t);
    }

    /** A dereferencable and any number of `^`. */
    method ParseFactorMethod() returns (ok: bool, t: int)
      requires Valid()
      modifies this`tokens, this`types, codegen
      ensures Valid() && Declared() == old(Declared()) && Extends(old(types), types) && Sc() == old(Sc())
      ensures Took(ok, t, ParseFactor(old(tokens)), old(Sc()), old(codegen.output), old(codegen.labelTag))
      decreases |tokens|, 2
    {
      hide ValidTables, ScopeOf, ParsePrimary, ExprCode, CheckExpr;
      ghost var sc, tag := Sc(), codegen.labelTag;
      ok, t := ParseDereferencable();
      if !ok {
        if ParsePrimary(old(tokens)).Got? {
          CaretLoopBad(sc, ParsePrimary(old(tokens)).v, ParsePrimary(old(tokens)).rest);
        }
        return;
      }
      ghost var e := ParsePrimary(old(tokens)).v;
      while Peek(tokens) == Caret
        invariant Valid() && Declared() == old(Declared()) && Extends(old(types), types) && Sc() == sc
        invariant ParseFactor(old(tokens)) == CaretLoop(e, tokens)
        invariant ok && ValidId(types, t) && Den(types, t).Some? && Den(types, t) == CheckExpr(sc, e)
        invariant codegen.output == old(codegen.output) + ExprCode(sc, e, tag).code
        invariant codegen.labelTag == ExprCode(sc, e, tag).tag
        decreases |tokens|
      {
        ReadToken();
        TypesValid();
        DenKinds(types, t);
        DerefTree(e, sc, tag);
        if t !in types.user {
          CaretLoopBad(sc, Deref(e), tokens);
          return false, VOID;
        }
        codegen.LoadValueFromPointer();
        t := types.user[t].target;
        e := Deref(e);
      }
    }

    lemma TypesValid()
      requires Valid()
      ensures ValidTypes(types)
    {}

    /** The code of one binary operator, where the operand types are already known to agree. */
    method EmitBinary(op: BinOp, t: int) returns (ok: bool)
      requires Valid() && ValidId(types, t)
      modifies codegen`output
      ensures ok <==> CheckBin(op, Den(types, t), Den(types, t)).Some?
      ensures ok ==> codegen.output == old(codegen.output) + BinCode(op, Den(types, t).value)
    {
      hide ValidTables, BinCode;
      TypesValid();
      DenKinds(types, t);
      ok := CheckType(t, if op == OpAnd || op == OpOr then BOOLEAN else ARITHMETIC);
      if !ok {
        return;
      }
      match op
      case OpAnd => codegen.AluAndBool();
      case OpMul => ok := codegen.AluMultiply(t);
      case OpDiv => ok := codegen.AluDivide(t);
      case OpMod => ok := codegen.AluModulus(t);
      case OpOr => codegen.AluOrBool();
      case OpAdd => ok := codegen.AluAdd(t);
      case OpSub => ok := codegen.AluSub(t);
    }

    /** Identifiers of two operands are equal iff their structures are. */
    lemma OperandTypes(before: Types, a: int, b: int)
      requires Valid() && ValidTypes(before) && ValidId(before, a) && Extends(before, types) && ValidId(types, b)
      ensures ValidId(types, a) && Den(types, a) == Den(before, a) && Den(types, a).Some?
      ensures a == b <==> Den(types, a) == Den(types, b)
    {
      DenExtends(before, types, a);
      DenValid(types, a);
      Canonical(types, a, b);
    }

    /** The operator between two operands whose code is already out. */
    method JoinOperands(op: BinOp, t: int, u: int, ghost l: Expr, ghost r: Expr, ghost sc: Scope, ghost tag: nat,
                        ghost before: Types, ghost out: seq<Instr>) returns (ok: bool)
      requires Valid() && ValidTypes(before) && Extends(before, types)
      requires ValidId(before, t) && Den(before, t) == CheckExpr(sc, l) && CheckExpr(sc, l).Some?
      requires ValidId(types, u) && Den(types, u) == CheckExpr(sc, r) && CheckExpr(sc, r).Some?
      requires var fl := ExprCode(sc, l, tag); var fr := ExprCode(sc, r, fl.tag);
        codegen.output == out + fl.code + fr.code && codegen.labelTag == fr.tag
      modifies codegen`output
      ensures ok <==> CheckExpr(sc, Bin(op, l, r)).Some?
      ensures ok ==>
        && ValidId(types, t) && Den(types, t) == CheckExpr(sc, Bin(op, l, r))
        && codegen.output == out + ExprCode(sc, Bin(op, l, r), tag).code
        && codegen.labelTag == ExprCode(sc, Bin(op, l, r), tag).tag
    {
      hide ValidTables, ExprCode, CheckExpr, BinCode;
      TypesValid();
      BinTree(op, l, r, sc, tag);
      OperandTypes(before, t, u);
      ok := CheckType(t, u);
      if ok {
        ok := EmitBinary(op, t);
      }
    }

    /** Factors joined by multiplicative operators, associating to the left. */
    method ParseTermMethod() returns (ok: bool, t: int)
      requires Valid()
      modifies this`tokens, this`types, codegen
      ensures Valid() && Declared() == old(Declared()) && Extends(old(types), types) && Sc() == old(Sc())
      ensures Took(ok, t, ParseTerm(old(tokens)), old(Sc()), old(codegen.output), old(codegen.labelTag))
      decreases |tokens|, 3
    {
      hide ValidTables, ScopeOf, ParseFactor, ExprCode, CheckExpr, BinCode;
      ghost var sc, tag := Sc(), codegen.labelTag;
      ok, t := ParseFactorMethod();
      ghost var f := ParseFactor(old(tokens));
      if !ok {
        if f.Got? {
          TermLoopBad(sc, f.v, f.rest);
        }
        return;
      }
      ghost var e := f.v;
      while IsMulTok(Peek(tokens))
        invariant Valid() && Declared() == old(Declared()) && Extends(old(types), types) && Sc() == sc
        invariant ParseTerm(old(tokens)) == TermLoop(e, tokens)
        invariant ok && ValidId(types, t) && CheckExpr(sc, e).Some? && Den(types, t) == CheckExpr(sc, e)
        invariant codegen.output == old(codegen.output) + ExprCode(sc, e, tag).code
        invariant codegen.labelTag == ExprCode(sc, e, tag).tag
        invariant |tokens| < |old(tokens)|
        decreases |tokens|
      {
        var op := Peek(tokens).op;
        TypesValid();
        ghost var before := types;
        ReadToken();
        ghost var r := ParseFactor(tokens);
        var u;
        ok, u := ParseFactorMethod();
        if !ok {
          if r.Got? {
            BinTree(op, e, r.v, sc, tag);
            TermLoopBad(sc, Bin(op, e, r.v), r.rest);
          }
          return false, VOID;
        }
        ok := JoinOperands(op, t, u, e, r.v, sc, tag, before, old(codegen.output));
        if !ok {
          TermLoopBad(sc, Bin(op, e, r.v), r.rest);
          return false, VOID;
        }
        e := Bin(op, e, r.v);
      }
    }

    /** Terms joined by additive operators, associating to the left. */
    method ParseSimpleExpression() returns (ok: bool, t: int)
      requires Valid()
      modifies this`tokens, this`types, codegen
      ensures Valid() && Declared() == old(Declared()) && Extends(old(types), types) && Sc() == old(Sc())
      ensures Took(ok, t, ParseSimple(old(tokens)), old(Sc()), old(codegen.output), old(codegen.labelTag))
      decreases |tokens|, 5
    {
      hide ValidTables, ScopeOf, ParseTerm, ExprCode, CheckExpr, BinCode;
      ghost var sc, tag := Sc(), codegen.labelTag;
      ok, t := ParseTermMethod();
      ghost var f := ParseTerm(old(tokens));
      if !ok {
        if f.Got? {
          SimpleLoopBad(sc, f.v, f.rest);
        }
        return;
      }
      ghost var e := f.v;
      while IsAddTok(Peek(tokens))
        invariant Valid() && Declared() == old(Declared()) && Extends(old(types), types) && Sc() == sc
        invariant ParseSimple(old(tokens)) == SimpleLoop(e, tokens)
        invariant ok && ValidId(types, t) && CheckExpr(sc, e).Some? && Den(types, t) == CheckExpr(sc, e)
        invariant codegen.output == old(codegen.output) + ExprCode(sc, e, tag).code
        invariant codegen.labelTag == ExprCode(sc, e, tag).tag
        invariant |tokens| < |old(tokens)|
        decreases |tokens|
      {
        var op := Peek(tokens).op;
        TypesValid();
        ghost var before := types;
        ReadToken();
        ghost var r := ParseTerm(tokens);
        var u;
        ok, u := ParseTermMethod();
        if !ok {
          if r.Got? {
            BinTree(op, e, r.v, sc, tag);
            SimpleLoopBad(sc, Bin(op, e, r.v), r.rest);
          }
          return false, VOID;
        }
        ok := JoinOperands(op, t, u, e, r.v, sc, tag, before, old(codegen.output));
        if !ok {
          SimpleLoopBad(sc, Bin(op, e, r.v), r.rest);
          return false, VOID;
        }
        e := Bin(op, e, r.v);
      }
    }

    /** A simple expression and at most one comparison. */
    method ParseExpression() returns (ok: bool, t: int)
      requires Valid()
      modifies this`tokens, this`types, codegen
      ensures Valid() && Declared() == old(Declared()) && Extends(old(types), types) && Sc() == old(Sc())
      ensures Took(ok, t, ParseExpr(old(tokens)), old(Sc()), old(codegen.output), old(codegen.labelTag))
      decreases |tokens|, 6
    {
      hide ValidTables, ScopeOf, ParseSimple, ExprCode, CheckExpr, CompareCode;
      ghost var sc, tag := Sc(), codegen.labelTag;
      ghost var l := ParseSimple(tokens);
      ok, t := ParseSimpleExpression();
      if l.Got? && Peek(l.rest).Relational? && ParseSimple(l.rest[1..]).Got? {
        RelTree(Peek(l.rest).rel, l.v, ParseSimple(l.rest[1..]).v, sc, tag);
      }
      if !ok || !Peek(tokens).Relational? {
        return;
      }
      var op := Peek(tokens).rel;
      TypesValid();
      ghost var before := types;
      ReadToken();
      var u;
      ok, u := ParseSimpleExpression();
      if !ok {
        return;
      }
      OperandTypes(before, t, u);
      TypesValid();
      DenKinds(types, t);
      ok := CheckType(t, u);
      if ok {
        ok := codegen.AluCompare(t, JumpCond(op));
      }
      t := BOOLEAN;
    }

    /** One argument: its expression against the declared parameter, and its register. */
    method ParseArgument(call: FunctionCall, parameter: int) returns (ok: bool)
      requires Valid() && IsBuiltin(parameter)
      modifies this`tokens, this`types, codegen, call`regularCount, call`floatCount
      ensures Valid() && Declared() == old(Declared()) && Extends(old(types), types) && Sc() == old(Sc())
      ensures var r := ParseExpr(old(tokens)); var sc := old(Sc()); var t := BuiltinOf(parameter);
        && (ok <==> r.Got? && CheckExpr(sc, r.v) == Some(t)
                    && (if t.TDouble? then old(call.floatCount) < 8 else old(call.regularCount) < 6))
        && (ok ==>
          && tokens == r.rest
          && call.regularCount == old(call.regularCount) + (if t.TDouble? then 0 else 1)
          && call.floatCount == old(call.floatCount) + (if t.TDouble? then 1 else 0)
          && codegen.output == old(codegen.output) + ExprCode(sc, r.v, old(codegen.labelTag)).code
                               + PopArg(t, old(call.regularCount), old(call.floatCount))
          && codegen.labelTag == ExprCode(sc, r.v, old(codegen.labelTag)).tag)
      decreases |tokens|, 7
    {
      hide ValidTables, ScopeOf, ParseExpr, ExprCode, CheckExpr, PopArg;
      var t;
      ok, t := ParseExpression();
      if ok {
        TypesValid();
        DenKinds(types, t);
        ok := CheckType(t, parameter);
      }
      if ok {
        ok := codegen.FunctionCallParam(call, t);
      }
    }

    /** What is known inside the argument loop of a call. */
    ghost predicate ArgsSoFar(args: seq<Expr>, params: seq<int>, call: FunctionCall, sc: Scope, out: seq<Instr>,
                              tag: nat)
      requires forall i :: 0 <= i < |params| ==> IsBuiltin(params[i])
      reads codegen, call
    {
      var ts := BuiltinTypes(params);
      && |args| <= |params|
      && (forall i :: 0 <= i < |args| ==> CheckExpr(sc, args[i]) == Some(ts[i]))
      && call.regularCount == RegularCount(ts[..|args|]) <= 6 && call.floatCount == FloatCount(ts[..|args|]) <= 8
      && codegen.output == out + ArgsCode(sc, args, tag, 0, 0).code
      && codegen.labelTag == ArgsCode(sc, args, tag, 0, 0).tag
    }

    /** The next argument of a call that still has a parameter for it. */
    method ParseNextArgument(call: FunctionCall, name: Name, params: seq<int>, i: nat, ghost args: seq<Expr>,
                             ghost sc: Scope, ghost out: seq<Instr>, ghost tag: nat, ghost expectsReturn: bool)
      returns (ok: bool)
      requires Valid() && Sc() == sc && i == |args| < |params| && forall k :: 0 <= k < |params| ==> IsBuiltin(params[k])
      requires name in sc.funcs && sc.funcs[name].params == BuiltinTypes(params)
      requires ArgsSoFar(args, params, call, sc, out, tag)
      modifies this`tokens, this`types, codegen, call`regularCount, call`floatCount
      ensures Valid() && Declared() == old(Declared()) && Extends(old(types), types) && Sc() == sc
      ensures !ok ==> var q := Prepend(args, ParseArgList(old(tokens))); q.Got? ==>
                !CallAccepted(sc, name, q.v, expectsReturn)
      ensures ok ==> var r := ParseExpr(old(tokens));
                r.Got? && tokens == r.rest && ArgsSoFar(args + [r.v], params, call, sc, out, tag)
      decreases |tokens|, 8
    {
      hide ValidTables, ScopeOf, ParseExpr, ParseArgList, ExprCode, CheckExpr, PopArg, CallAccepted, BuiltinTypes,
        ArgsCode;
      ghost var r, before := ParseExpr(tokens), tokens;
      ok := ParseArgument(call, params[i]);
      if ok {
        GoodArgument(sc, args, r.v, sc.funcs[name].params, tag);
        CountsNext(sc.funcs[name].params, i);
      } else {
        BadArgument(sc, name, before, args, expectsReturn);
      }
    }

    /** A call, from its opening parenthesis. */
    method ParseFunctionCallAfterIdentifier(name: Name, expectsReturn: bool) returns (ok: bool, t: int)
      requires Valid() && Peek(tokens) == LParen
      modifies this`tokens, this`types, codegen
      ensures Valid() && Declared() == old(Declared()) && Extends(old(types), types) && Sc() == old(Sc())
      ensures var r := ParseArgs(old(tokens)[1..]); var sc := old(Sc());
        && (ok <==> r.Got? && CallAccepted(sc, name, r.v, expectsReturn))
        && (ok ==>
          && tokens == r.rest && (t == VOID || ValidId(types, t))
          && (if t == VOID then None else Den(types, t)) == sc.funcs[name].ret
          && codegen.output == old(codegen.output) + (ArgsCode(sc, r.v, old(codegen.labelTag), 0, 0).code
                                                      + FinishCall(name, sc.funcs[name].ret))
          && codegen.labelTag == ArgsCode(sc, r.v, old(codegen.labelTag), 0, 0).tag)
      decreases |tokens|, 7
    {
      hide ValidTables, ScopeOf, ParseArgs, FinishCall, CallAccepted, ArgsSoFar, ArgsCode, BuiltinTypes,
        ValidFunction, Den;
      ReadToken();
      ghost var r, sc := ParseArgs(tokens), Sc();
      if r.Got? {
        AcceptedParts(sc, name, r.v, expectsReturn);
      }
      if name !in functions {
        FunctionEntry(name);
        return false, VOID;
      }
      FunctionEntry(name);
      var function_ := functions[name];
      t := function_.ret;
      if t == VOID && expectsReturn {
        return false, VOID;
      }
      var call := new FunctionCall(name, function_.ret, false);
      ghost var args, tag, out := [], codegen.labelTag, codegen.output;
      var i;
      ok, i, args := ParseCallArguments(call, name, function_, expectsReturn);
      if !ok {
        return false, VOID;
      }
      FunctionEntry(name);
      ok := ParseCallEnd(call, name, function_, i, args, sc, out, tag);
    }

    /** How a declared function appears in the scope. */
    lemma FunctionEntry(name: Name)
      requires Valid()
      ensures name in functions <==> name in Sc().funcs
      ensures name in functions ==>
        var f := functions[name]; var sig := Sc().funcs[name];
        && ValidFunction(types, f) && sig == SigOf(types, f) && sig.params == BuiltinTypes(f.params)
        && (forall k :: 0 <= k < |f.params| ==> IsBuiltin(f.params[k]))
        && (f.ret == VOID <==> sig.ret.None?)
        && (f.ret == VOID || ValidId(types, f.ret))
        && (if f.ret == VOID then None else Den(types, f.ret)) == sig.ret
    {
      hide ScopeOf, BuiltinTypes;
      ScopeEntries(types, variables, typedefs, functions, name);
      EntryValid(name);
      if name in functions {
        ReturnKinds(functions[name]);
      }
    }

    /** The end of a call whose arguments have been passed: it is accepted iff every parameter had
        its argument and the result can be pushed. */
    method ParseCallEnd(call: FunctionCall, name: Name, function_: Function, i: nat, ghost args: seq<Expr>,
                        ghost sc: Scope, ghost out: seq<Instr>, ghost tag: nat) returns (ok: bool)
      requires Valid() && ValidFunction(types, function_) && name in sc.funcs
      requires sc.funcs[name] == SigOf(types, function_)
      requires ArgsSoFar(args, function_.params, call, sc, out, tag) && i == |args|
      requires call.functionName == name && call.returnType == function_.ret && !call.variadic
      modifies this`tokens, codegen`output
      ensures ok <==> CallAccepted(sc, name, args, false) && Peek(old(tokens)) == RParen
      ensures ok ==> tokens == Advance(old(tokens))
      ensures ok ==> codegen.output == out + (ArgsCode(sc, args, tag, 0, 0).code + FinishCall(name, sc.funcs[name].ret))
      ensures ok ==> codegen.labelTag == ArgsCode(sc, args, tag, 0, 0).tag
    {
      hide FinishCall, CallAccepted, ArgsSoFar, ArgsCode, BuiltinTypes, SigOf, ResultOf, Den;
      ArgsComplete(call, name, function_, args, sc, out, tag);
      if i < |function_.params| {
        return false;
      }
      ok := codegen.FunctionCallFinalize(call);
      if ok {
        ok := TryReadToken(RParen);
      }
    }

    lemma ArgsNone(call: FunctionCall, params: seq<int>)
      requires call.regularCount == call.floatCount == 0 && forall k :: 0 <= k < |params| ==> IsBuiltin(params[k])
      ensures ArgsSoFar([], params, call, Sc(), codegen.output, codegen.labelTag)
      requires Valid()
    {}

    /** After the argument loop the call is accepted iff every parameter had its argument and the
        result can be pushed. */
    lemma ArgsComplete(call: FunctionCall, name: Name, f: Function, args: seq<Expr>, sc: Scope, out: seq<Instr>,
                       tag: nat)
      requires Valid() && ValidFunction(types, f) && name in sc.funcs && sc.funcs[name] == SigOf(types, f)
      requires ArgsSoFar(args, f.params, call, sc, out, tag)
      ensures var sig := sc.funcs[name];
        && (CallAccepted(sc, name, args, false) <==>
              (|args| == |f.params| && (f.ret == VOID || f.ret == UNSIGNED_INT || f.ret == CHAR || f.ret == DOUBLE)))
        && (f.ret == VOID || IsBuiltin(f.ret) ==> sig.ret == ResultOf(f.ret))
        && |args| <= |f.params|
      ensures codegen.output == out + ArgsCode(sc, args, tag, 0, 0).code
      ensures codegen.labelTag == ArgsCode(sc, args, tag, 0, 0).tag
    {
      var ts := sc.funcs[name].params;
      CheckArgsAll(sc, args, ts);
      AllCounted(ts);
      ReturnKinds(f);
    }

    /** The loop over the arguments of a call, up to the closing parenthesis. */
    method ParseCallArguments(call: FunctionCall, name: Name, function_: Function, ghost expectsReturn: bool)
      returns (ok: bool, i: nat, ghost args: seq<Expr>)
      requires Valid() && name in functions && functions[name] == function_ && call.regularCount == call.floatCount == 0
      requires forall k :: 0 <= k < |function_.params| ==> IsBuiltin(function_.params[k])
      requires name in Sc().funcs && Sc().funcs[name].params == BuiltinTypes(function_.params)
      modifies this`tokens, this`types, codegen, call`regularCount, call`floatCount
      ensures Valid() && Declared() == old(Declared()) && Extends(old(types), types) && Sc() == old(Sc())
      ensures !ok ==> var r := ParseArgs(old(tokens)); r.Got? ==> !CallAccepted(old(Sc()), name, r.v, expectsReturn)
      ensures ok ==> i == |args|
      ensures ok ==> ArgsSoFar(args, function_.params, call, old(Sc()), old(codegen.output), old(codegen.labelTag))
      ensures ok ==> ParseArgs(old(tokens)) == if Peek(tokens) == RParen then Got(args, Advance(tokens)) else Fail
      decreases |tokens|, 9
    {
      hide ValidTables, ScopeOf, ParseExpr, ParseArgList, ExprCode, CheckExpr, PopArg, CallAccepted, BuiltinTypes,
        ArgsSoFar;
      ArgsNone(call, function_.params);
      ghost var sc, tag := Sc(), codegen.labelTag;
      args := [];
      PrependNone(ParseArgList(tokens));
      var more := Peek(tokens) != RParen;
      i := 0;
      while more
        invariant Valid() && Declared() == old(Declared()) && Extends(old(types), types) && Sc() == sc
        invariant i == |args| <= |function_.params|
        invariant ArgsSoFar(args, function_.params, call, sc, old(codegen.output), tag)
        invariant more ==> ParseArgs(old(tokens)) == Prepend(args, ParseArgList(tokens))
        invariant !more ==>
                    ParseArgs(old(tokens)) == if Peek(tokens) == RParen then Got(args, Advance(tokens)) else Fail
        invariant |tokens| <= |old(tokens)|
        decreases more, |tokens|
      {
        if i >= |function_.params| {
          BadArgument(sc, name, tokens, args, expectsReturn);
          return false, i, args;
        }
        ghost var r := ParseExpr(tokens);
        ArgListRound(tokens, args);
        ok := ParseNextArgument(call, name, function_.params, i, args, sc, old(codegen.output), tag, expectsReturn);
        if !ok {
          return false, i, args;
        }
        args := args + [r.v];
        i := i + 1;
        more := TryReadToken(Comma);
      }
      ok := true;
    }

    lemma AllCounted(ts: seq<Ty>)
      ensures ts[..|ts|] == ts
    {}

    /** Which results a call can have. */
    lemma ReturnKinds(f: Function)
      requires Valid() && ValidFunction(types, f)
      ensures var s := SigOf(types, f);
        && (forall i :: 0 <= i < |s.params| ==> !s.params[i].TPtr?)
        && (Callable(s) <==> (RegularCount(s.params) <= 6 && FloatCount(s.params) <= 8
              && (f.ret == VOID || f.ret == UNSIGNED_INT || f.ret == CHAR || f.ret == DOUBLE)))
        && (f.ret == VOID <==> s.ret.None?)
        && (f.ret != VOID ==> s.ret == Den(types, f.ret))
        && (f.ret == VOID || IsBuiltin(f.ret) ==> s.ret == ResultOf(f.ret))
    {
      if f.ret != VOID {
        DenKinds(types, f.ret);
      }
    }

    // ---------- statements ----------

    ghost predicate TookStmt(ok: bool, r: Parsed<Stmt>, sc: Scope, out: seq<Instr>, tag: nat)
      reads this, codegen
    {
      && (ok <==> r.Got? && CheckStmt(sc, r.v))
      && (ok ==>
        && tokens == r.rest
        && codegen.output == out + StmtCode(sc, r.v, tag).code && codegen.labelTag == StmtCode(sc, r.v, tag).tag)
    }

    ghost predicate TookAssign(ok: bool, x: Name, r: Parsed<Assigned>, sc: Scope, out: seq<Instr>, tag: nat)
      reads this, codegen
    {
      && (ok <==> r.Got? && CheckAssign(sc, x, r.v.carets, r.v.e))
      && (ok ==>
        && tokens == r.rest
        && codegen.output == out + (ExprCode(sc, r.v.e, tag).code + StoreCode(x, r.v.carets))
        && codegen.labelTag == ExprCode(sc, r.v.e, tag).tag)
    }

    /** An expression of a given builtin type. */
    method ParseExpressionOf(expected: int) returns (ok: bool)
      requires Valid() && IsBuiltin(expected)
      modifies this`tokens, this`types, codegen
      ensures Valid() && Declared() == old(Declared()) && Extends(old(types), types) && Sc() == old(Sc())
      ensures var r := ParseExpr(old(tokens)); var sc := old(Sc());
        && (ok <==> r.Got? && CheckExpr(sc, r.v) == Some(BuiltinOf(expected)))
        && (ok ==>
          && tokens == r.rest
          && codegen.output == old(codegen.output) + ExprCode(sc, r.v, old(codegen.labelTag)).code
          && codegen.labelTag == ExprCode(sc, r.v, old(codegen.labelTag)).tag)
      decreases |tokens|, 7
    {
      hide ValidTables, ScopeOf, ParseExpr, ExprCode, CheckExpr;
      var t;
      ok, t := ParseExpression();
      if ok {
        TypesValid();
        DenKinds(types, t);
        ok := CheckType(t, expected);
      }
    }

    /** The condition of an IF or a WHILE and the keyword behind it. */
    method ParseCondition(keyword: Token) returns (ok: bool)
      requires Valid()
      modifies this`tokens, this`types, codegen
      ensures Valid() && Declared() == old(Declared()) && Extends(old(types), types) && Sc() == old(Sc())
      ensures var r := ParseExpr(old(tokens)); var sc := old(Sc());
        && (ok <==> r.Got? && CheckExpr(sc, r.v) == Some(TBool) && Peek(r.rest) == keyword)
        && (ok ==>
          && tokens == Advance(r.rest) && |tokens| < |old(tokens)|
          && codegen.output == old(codegen.output) + ExprCode(sc, r.v, old(codegen.labelTag)).code
          && codegen.labelTag == ExprCode(sc, r.v, old(codegen.labelTag)).tag)
      decreases |tokens|, 8
    {
      hide ValidTables, ScopeOf, ParseExpr, ExprCode, CheckExpr;
      ok := ParseExpressionOf(BOOLEAN);
      if ok {
        ok := TryReadToken(keyword);
      }
    }

    /** An assignment, from behind its identifier; the type is the one of the variable, or VOID after
        an assignment through a pointer. */
    method ParseAssignmentStatementAfterIdentifier(name: Name) returns (ok: bool, t: int)
      requires Valid()
      modifies this`tokens, this`types, codegen
      ensures Valid() && Declared() == old(Declared()) && Extends(old(types), types) && Sc() == old(Sc())
      ensures TookAssign(ok, name, ParseAssign(old(tokens)), old(Sc()), old(codegen.output), old(codegen.labelTag))
      ensures ok ==> name in variables && t == if ParseAssign(old(tokens)).v.carets == 0 then variables[name] else VOID
      decreases |tokens|, 7
    {
      hide ValidTables, ScopeOf, ParseExpr, ParseAssign, ExprCode, CheckExpr;
      ghost var sc := Sc();
      EntryValid(name);
      ScopeEntries(types, variables, typedefs, functions, name);
      if name !in variables {
        return false, VOID;
      }
      if Peek(tokens) == Caret {
        ok := ParsePointerAssignment(name);
        AssignTree(old(tokens));
        return ok, VOID;
      }
      AssignTree(tokens);
      assert tokens[0..] == tokens;
      ok := TryReadToken(Token.Assign);
      if !ok {
        return false, VOID;
      }
      var u;
      ok, u := ParseExpression();
      if !ok {
        return false, VOID;
      }
      codegen.StoreVariable(name);
      Emitted(old(codegen.output), ExprCode(sc, ParseAssign(old(tokens)).v.e, old(codegen.labelTag)).code,
              [PopVar(name)]);
      EntryValid(name);
      ScopeEntries(types, variables, typedefs, functions, name);
      TypesValid();
      Canonical(types, u, variables[name]);
      ok := CheckType(u, variables[name]);
      t := variables[name];
    }

    /** The carets of an assignment: the types they lead to. */
    method ParseCarets(name: Name, ghost v: Ty) returns (ok: bool, dereferenceStack: seq<int>)
      requires Valid() && name in variables && Den(types, variables[name]) == Some(v)
      modifies this`tokens
      ensures var k := CountCarets(old(tokens));
        && (ok <==> Strip(v, k).Some?)
        && (ok ==>
          && tokens == old(tokens)[k..] && |dereferenceStack| == k
          && (k > 0 ==> ValidId(types, dereferenceStack[k - 1]) && Den(types, dereferenceStack[k - 1]) == Strip(v, k)))
    {
      hide ValidTables, ScopeOf;
      EntryValid(name);
      var current := variables[name];
      dereferenceStack := [];
      while Peek(tokens) == Caret
        invariant |dereferenceStack| + CountCarets(tokens) == CountCarets(old(tokens))
        invariant tokens == old(tokens)[|dereferenceStack|..]
        invariant ValidId(types, current) && Den(types, current) == Strip(v, |dereferenceStack|)
        invariant dereferenceStack != [] ==> dereferenceStack[|dereferenceStack| - 1] == current
        decreases |tokens|
      {
        ReadToken();
        DenKinds(types, current);
        StripStep(v, |dereferenceStack|);
        if current !in types.user {
          StripBeyond(v, |dereferenceStack| + 1, CountCarets(old(tokens)));
          return false, [];
        }
        current := types.user[current].target;
        dereferenceStack := dereferenceStack + [current];
      }
      DenKinds(types, current);
      ok := true;
    }

    /** The store through a chain of pointers: all but the last are followed. */
    method EmitPointerStore(name: Name, dereferenceStack: seq<int>)
      requires dereferenceStack != []
      modifies codegen`output
      ensures codegen.output == old(codegen.output) + StoreCode(name, |dereferenceStack|)
    {
      ghost var out := codegen.output;
      codegen.LoadVariable(name);
      for i := 0 to |dereferenceStack| - 1
        invariant codegen.output == out + [PushVar(name)] + LoadChain(i)
      {
        codegen.LoadValueFromPointer();
        LoadChainSnoc(i);
        Emitted(out + [PushVar(name)], LoadChain(i), LOAD_POINTED);
      }
      codegen.StoreValueToPointer();
      Emitted4(out, [PushVar(name)], LoadChain(|dereferenceStack| - 1), STORE_POINTED);
    }

    /** `^...^ := e`: the value is evaluated before the variable is loaded and followed. */
    method ParsePointerAssignment(name: Name) returns (ok: bool)
      requires Valid() && name in variables && Peek(tokens) == Caret
      modifies this`tokens, this`types, codegen
      ensures Valid() && Declared() == old(Declared()) && Extends(old(types), types) && Sc() == old(Sc())
      ensures TookAssign(ok, name, ParseAssign(old(tokens)), old(Sc()), old(codegen.output), old(codegen.labelTag))
      decreases |tokens|, 6
    {
      hide ValidTables, ScopeOf, ParseExpr, ParseAssign, ExprCode, CheckExpr, Den, StoreCode, Strip;
      ghost var sc, before := Sc(), types;
      ScopeEntries(types, variables, typedefs, functions, name);
      TypesValid();
      AssignTree(tokens);
      CaretFirst(tokens);
      var dereferenceStack;
      ok, dereferenceStack := ParseCarets(name, sc.vars[name]);
      if !ok {
        return;
      }
      ok := TryReadToken(Token.Assign);
      if !ok {
        return;
      }
      var u;
      ok, u := ParseExpression();
      if !ok {
        return;
      }
      ghost var r := ParseAssign(old(tokens));
      var k := |dereferenceStack|;
      EmitPointerStore(name, dereferenceStack);
      Emitted(old(codegen.output), ExprCode(sc, r.v.e, old(codegen.labelTag)).code, StoreCode(name, k));
      OperandTypes(before, dereferenceStack[k - 1], u);
      TypesValid();
      DenKinds(types, u);
      ok := CheckType(u, dereferenceStack[k - 1]);
    }

    lemma CaretFirst(ts: seq<Token>)
      ensures Peek(ts) == Caret ==> CountCarets(ts) > 0
    {}

    method ParseStatementIdentifier() returns (ok: bool)
      requires Valid() && Peek(tokens).Id?
      modifies this`tokens, this`types, codegen
      ensures Valid() && Declared() == old(Declared()) && Extends(old(types), types) && Sc() == old(Sc())
      ensures TookStmt(ok, ParseStmt(old(tokens)), old(Sc()), old(codegen.output), old(codegen.labelTag))
      decreases |tokens|, 8
    {
      hide ValidTables, ScopeOf, ParseStmt, ParseAssign, ParseArgs, CheckStmt, StmtCode, ExprCode, CheckExpr,
        CheckAssign, StoreCode, ArgsCode, FinishCall, CheckArgs, Callable;
      var name := Peek(tokens);
      ghost var before := tokens;
      ReadToken();
      var t;
      if Peek(tokens) == LParen {
        CallStmtTree(before, Sc(), codegen.labelTag);
        ok, t := ParseFunctionCallAfterIdentifier(name, false);
      } else {
        AssignStmtTree(before, Sc(), codegen.labelTag);
        ok, t := ParseAssignmentStatementAfterIdentifier(name);
      }
    }

    method ParseIfStatement() returns (ok: bool)
      requires Valid() && Peek(tokens) == KIf
      modifies this`tokens, this`types, codegen
      ensures Valid() && Declared() == old(Declared()) && Extends(old(types), types) && Sc() == old(Sc())
      ensures TookStmt(ok, ParseStmt(old(tokens)), old(Sc()), old(codegen.output), old(codegen.labelTag))
      decreases |tokens|, 8
    {
      hide ValidTables, ScopeOf, ParseStmt, ParseExpr, CheckStmt, StmtCode, ExprCode, CheckExpr, ParseBranches,
        CheckBranches, BranchesCode, Branch;
      ghost var sc, tag, out := Sc(), codegen.labelTag, codegen.output;
      IfTree(tokens);
      ghost var e := ParseExpr(tokens[1..]);
      ghost var b := ParseBranches(Advance(if e.Got? then e.rest else []));
      if e.Got? && b.Got? {
        IfOfTree(sc, e.v, b.v, tag);
      }
      var ifStatement := new IfStatement();
      codegen.StatementIfPrepare(ifStatement);
      ReadToken();
      ok := ParseCondition(KThen);
      if !ok {
        return;
      }
      codegen.StatementIfPostCheck(ifStatement);
      ok := ParseIfBranches(ifStatement);
      ghost var fe := ExprCode(sc, e.v, tag + 1);
      if ok {
        Emitted(out, fe.code, Branch(LFalse(tag + 1)) + [Def(LTrue(tag + 1))]);
        Emitted(out, fe.code + (Branch(LFalse(tag + 1)) + [Def(LTrue(tag + 1))]),
                BranchesCode(sc, b.v, tag + 1, fe.tag).code);
      }
    }

    /** The rest of an IF, from behind THEN; an ELSE belongs to the nearest IF. */
    method ParseIfBranches(ifStatement: IfStatement) returns (ok: bool)
      requires Valid()
      modifies this`tokens, this`types, codegen
      ensures Valid() && Declared() == old(Declared()) && Extends(old(types), types) && Sc() == old(Sc())
      ensures var r := ParseBranches(old(tokens)); var sc := old(Sc());
        && (ok <==> r.Got? && CheckBranches(sc, r.v))
        && (ok ==>
          && tokens == r.rest
          && codegen.output
             == old(codegen.output) + BranchesCode(sc, r.v, ifStatement.savedTag, old(codegen.labelTag)).code
          && codegen.labelTag == BranchesCode(sc, r.v, ifStatement.savedTag, old(codegen.labelTag)).tag)
      decreases |tokens|, 10
    {
      hide ValidTables, ScopeOf, ParseStmt, CheckStmt, StmtCode;
      ghost var sc, tag, out, g := Sc(), codegen.labelTag, codegen.output, ifStatement.savedTag;
      ghost var t := ParseStmt(tokens);
      ok := ParseStatement();
      if !ok {
        return;
      }
      ghost var ft := StmtCode(sc, t.v, tag);
      var hasElse := TryReadToken(KElse);
      if hasElse {
        codegen.StatementIfWithElse(ifStatement);
        ghost var f := ParseStmt(tokens);
        ok := ParseStatement();
        if !ok {
          return;
        }
        Emitted5(out, ft.code, [Jmp(LNext(g)), Def(LFalse(g))], StmtCode(sc, f.v, ft.tag).code, [Def(LNext(g))]);
      } else {
        codegen.StatementIfWithoutElse(ifStatement);
        Emitted4(out, ft.code, [Def(LFalse(g))], [Def(LNext(g))]);
      }
      codegen.StatementIfFinalize(ifStatement);
    }

    method ParseWhileStatement() returns (ok: bool)
      requires Valid() && Peek(tokens) == KWhile
      modifies this`tokens, this`types, codegen
      ensures Valid() && Declared() == old(Declared()) && Extends(old(types), types) && Sc() == old(Sc())
      ensures TookStmt(ok, ParseStmt(old(tokens)), old(Sc()), old(codegen.output), old(codegen.labelTag))
      decreases |tokens|, 8
    {
      hide ValidTables, ScopeOf, ParseStmt, ParseExpr, CheckStmt, StmtCode, ExprCode, CheckExpr, Branch;
      ghost var sc, tag, out := Sc(), codegen.labelTag, codegen.output;
      WhileTree(tokens);
      ghost var e := ParseExpr(tokens[1..]);
      ghost var b := ParseStmt(Advance(if e.Got? then e.rest else []));
      if e.Got? && b.Got? {
        LoopTree(sc, e.v, b.v, tag);
      }
      var whileStatement := new WhileStatement();
      codegen.StatementWhilePrepare(whileStatement);
      ReadToken();
      ok := ParseCondition(KDo);
      if !ok {
        return;
      }
      ok := ParseWhileBody(whileStatement);
      ghost var fe := ExprCode(sc, e.v, tag + 1);
      if ok {
        Emitted6(out, [Def(LWhile(tag + 1))], fe.code, Branch(LNext(tag + 1)), StmtCode(sc, b.v, fe.tag).code,
                 [Jmp(LWhile(tag + 1)), Def(LNext(tag + 1))]);
      }
    }

    /** The exit test, the body and the jump back of a WHILE, from behind DO. */
    method ParseWhileBody(whileStatement: WhileStatement) returns (ok: bool)
      requires Valid()
      modifies this`tokens, this`types, codegen
      ensures Valid() && Declared() == old(Declared()) && Extends(old(types), types) && Sc() == old(Sc())
      ensures var r := ParseStmt(old(tokens)); var g := whileStatement.savedTag;
        && (ok <==> r.Got? && CheckStmt(old(Sc()), r.v))
        && (ok ==>
          && tokens == r.rest
          && codegen.output
          == old(codegen.output) + Branch(LNext(g)) + StmtCode(old(Sc()), r.v, old(codegen.labelTag)).code
                               + [Jmp(LWhile(g)), Def(LNext(g))]
          && codegen.labelTag == StmtCode(old(Sc()), r.v, old(codegen.labelTag)).tag)
      decreases |tokens|, 10
    {
      hide ValidTables, ScopeOf, ParseStmt, CheckStmt, StmtCode, Branch;
      codegen.StatementWhilePostCheck(whileStatement);
      ok := ParseStatement();
      codegen.StatementWhileFinalize(whileStatement);
    }

    method ParseForStatement() returns (ok: bool)
      requires Valid() && Peek(tokens) == KFor
      modifies this`tokens, this`types, codegen
      ensures Valid() && Declared() == old(Declared()) && Extends(old(types), types) && Sc() == old(Sc())
      ensures TookStmt(ok, ParseStmt(old(tokens)), old(Sc()), old(codegen.output), old(codegen.labelTag))
      decreases |tokens|, 8
    {
      hide ValidTables, ScopeOf, ParseStmt, ParseAssign, CheckStmt, StmtCode, ExprCode, StoreCode,
           CheckAssign, ParseRounds, CheckRounds, RoundsCode;
      ghost var sc, tag, out := Sc(), codegen.labelTag, codegen.output;
      ForTree(tokens);
      ReadToken();
      if !Peek(tokens).Id? {
        return false;
      }
      var name := Peek(tokens);
      ReadToken();
      ghost var a := ParseAssign(tokens);
      ghost var r := ParseRounds(if a.Got? then a.rest else []);
      if a.Got? && r.Got? {
        ForToTree(sc, name, a.v, r.v, tag);
      }
      var t;
      ok, t := ParseAssignmentStatementAfterIdentifier(name);
      if !ok {
        return;
      }
      LoopVariable(name);
      ok := CheckType(t, UNSIGNED_INT);
      if !ok {
        return;
      }
      var forStatement := new ForStatement(name);
      codegen.StatementForPrepare(forStatement, name);
      ok := ParseForRounds(forStatement);
      ghost var f0 := ExprCode(sc, a.v.e, tag);
      if ok {
        Emitted(out, f0.code + StoreCode(name, 0), RoundsCode(sc, name, r.v, f0.tag + 1).code);
      }
    }

    /** The rest of a FOR, from behind its assignment. */
    method ParseForRounds(forStatement: ForStatement) returns (ok: bool)
      requires Valid() && codegen.labelTag == forStatement.savedTag
      modifies this`tokens, this`types, codegen
      ensures Valid() && Declared() == old(Declared()) && Extends(old(types), types) && Sc() == old(Sc())
      ensures var r := ParseRounds(old(tokens)); var sc := old(Sc()); var x := forStatement.variable;
        && (ok <==> r.Got? && CheckRounds(sc, r.v))
        && (ok ==>
          && tokens == r.rest
          && codegen.output == old(codegen.output) + RoundsCode(sc, x, r.v, old(codegen.labelTag)).code
          && codegen.labelTag == RoundsCode(sc, x, r.v, old(codegen.labelTag)).tag)
      decreases |tokens|, 10
    {
      hide ValidTables, ScopeOf, ParseStmt, ParseExpr, CheckStmt, StmtCode, ExprCode, CheckExpr;
      ghost var sc, g, out, x := Sc(), codegen.labelTag, codegen.output, forStatement.variable;
      ghost var r := ParseRounds(tokens);
      codegen.StatementForPostAssignment(forStatement);
      ok := TryReadToken(KTo);
      if ok {
        ok := ParseExpressionOf(UNSIGNED_INT);
      }
      if ok {
        ok := TryReadToken(KDo);
      }
      if !ok {
        return;
      }
      codegen.StatementForPostCheck(forStatement);
      ok := ParseStatement();
      if !ok {
        return;
      }
      codegen.StatementForFinalize(forStatement);
      ghost var f1 := ExprCode(sc, r.v.to, g);
      Emitted6(out, [Def(LFor(g))], f1.code, [PopReg(RAX), CmpVar(x), Jcc(L, LNext(g))],
               StmtCode(sc, r.v.body, f1.tag).code, [IncVar(x), Jmp(LFor(g)), Def(LNext(g))]);
    }

    lemma LoopVariable(name: Name)
      requires Valid() && name in variables
      ensures name in Sc().vars && (Sc().vars[name].TInt? <==> variables[name] == UNSIGNED_INT)
    {
      hide ScopeOf;
      ScopeEntries(types, variables, typedefs, functions, name);
      EntryValid(name);
      DenKinds(types, variables[name]);
    }

    /** What is known inside the loop over the items of a block: it goes on, or END must follow. */
    ghost predicate InBlock(more: bool, done: seq<Stmt>, block: Parsed<Stmt>, sc: Scope, out: seq<Instr>, tag: nat)
      reads this, codegen
    {
      && CheckStmts(sc, done)
      && (more ==> block == AtItem(done, tokens))
      && (!more ==> block == if Peek(tokens) == KEnd then Got(Block(done, false), Advance(tokens)) else Fail)
      && codegen.output == out + StmtsCode(sc, done, tag).code && codegen.labelTag == StmtsCode(sc, done, tag).tag
    }

    /** BEGIN, then statements up to END; a semicolon may stand before END. */
    method ParseBlockStatement() returns (ok: bool)
      requires Valid()
      modifies this`tokens, this`types, codegen
      ensures Valid() && Declared() == old(Declared()) && Extends(old(types), types) && Sc() == old(Sc())
      ensures TookStmt(ok, ParseBlock(old(tokens)), old(Sc()), old(codegen.output), old(codegen.labelTag))
      decreases |tokens|, 8
    {
      hide ValidTables, ScopeOf, ParseBlock, CheckStmt, StmtCode, StmtsCode, CheckStmts, AtItem;
      ghost var sc, tag, out, block := Sc(), codegen.labelTag, codegen.output, ParseBlock(tokens);
      BlockStart(tokens);
      ok := TryReadToken(KBegin);
      if !ok {
        return;
      }
      ghost var done: seq<Stmt> := [];
      NoItems(sc, tag);
      var more := true;
      while more
        invariant Valid() && Declared() == old(Declared()) && Extends(old(types), types) && Sc() == sc
        invariant InBlock(more, done, block, sc, out, tag) && |tokens| < |old(tokens)|
        decreases more, |tokens|
      {
        ItemEnd(done, tokens);
        var end := TryReadToken(KEnd);
        if end {
          CheckBlock(sc, done, done != [], tag);
          return true;
        }
        ok, more, done := ParseItem(done, block, sc, out, tag);
        if !ok {
          return false;
        }
      }
      CheckBlock(sc, done, false, tag);
      ok := TryReadToken(KEnd);
    }

    /** One statement of a block and the semicolon behind it. */
    method ParseItem(ghost done: seq<Stmt>, ghost block: Parsed<Stmt>, ghost sc: Scope, ghost out: seq<Instr>,
                     ghost tag: nat)
      returns (ok: bool, more: bool, ghost done': seq<Stmt>)
      requires Valid() && Sc() == sc && InBlock(true, done, block, sc, out, tag) && Peek(tokens) != KEnd
      modifies this`tokens, this`types, codegen
      ensures Valid() && Declared() == old(Declared()) && Extends(old(types), types) && Sc() == sc
      ensures ok ==> InBlock(more, done', block, sc, out, tag) && |tokens| < |old(tokens)|
      ensures !ok && block.Got? ==> !CheckStmt(sc, block.v)
      decreases |tokens|, 10
    {
      hide ValidTables, ScopeOf, ParseStmt, CheckStmt, StmtCode, StmtsCode, CheckStmts, AtItem;
      ghost var s := ParseStmt(tokens);
      ItemRound(done, tokens);
      ok := ParseStatement();
      done', more := done, false;
      if s.Got? {
        StmtsSnoc(sc, done, s.v, tag);
      }
      if !ok {
        if s.Got? {
          SpoiltBlock(sc, done, s.v, s.rest, block);
        }
        return;
      }
      Emitted(out, StmtsCode(sc, done, tag).code, StmtCode(sc, s.v, StmtsCode(sc, done, tag).tag).code);
      done' := done + [s.v];
      more := TryReadToken(Semicolon);
    }

    method ParseDisplayStatement() returns (ok: bool)
      requires Valid() && Peek(tokens) == KDisplay
      modifies this`tokens, this`types, codegen
      ensures Valid() && Declared() == old(Declared()) && Extends(old(types), types) && Sc() == old(Sc())
      ensures TookStmt(ok, ParseStmt(old(tokens)), old(Sc()), old(codegen.output), old(codegen.labelTag))
      decreases |tokens|, 8
    {
      hide ValidTables, ScopeOf, ParseStmt, ParseExpr, CheckStmt, StmtCode, ExprCode, CheckExpr, DisplayCode;
      ShowTree(tokens, Sc(), codegen.labelTag);
      ReadToken();
      var t;
      ok, t := ParseExpression();
      if !ok {
        return;
      }
      TypesValid();
      DenKinds(types, t);
      if IsUserDefined(t) {
        return false;
      }
      ghost var e := ParseExpr(old(tokens)[1..]).v;
      ok := codegen.DebugDisplay(t);
      Emitted(old(codegen.output), ExprCode(Sc(), e, old(codegen.labelTag)).code, DisplayCode(BuiltinOf(t)));
    }

    method ParseStatement() returns (ok: bool)
      requires Valid()
      modifies this`tokens, this`types, codegen
      ensures Valid() && Declared() == old(Declared()) && Extends(old(types), types) && Sc() == old(Sc())
      ensures TookStmt(ok, ParseStmt(old(tokens)), old(Sc()), old(codegen.output), old(codegen.labelTag))
      decreases |tokens|, 9
    {
      hide ValidTables, ScopeOf, ParseStmt, CheckStmt, StmtCode, ParseBlock;
      match Peek(tokens)
      case KIf => ok := ParseIfStatement();
      case KWhile => ok := ParseWhileStatement();
      case KFor => ok := ParseForStatement();
      case KBegin =>
        BlockStart(tokens);
        ok := ParseBlockStatement();
      case KDisplay => ok := ParseDisplayStatement();
      case Id(_) => ok := ParseStatementIdentifier();
      case _ =>
        OtherStmt(tokens);
        ok := false;
    }

    /** The main block and the final dot. */
    method ParseMainBlockStatement() returns (ok: bool)
      requires Valid()
      modifies this`tokens, this`types, codegen
      ensures Valid() && Declared() == old(Declared()) && Extends(old(types), types) && Sc() == old(Sc())
      ensures var r := ParseBlock(old(tokens)); var sc := old(Sc());
        && (ok <==> r.Got? && CheckStmt(sc, r.v) && Peek(r.rest) == Dot)
        && (ok ==>
          && tokens == Advance(r.rest)
          && (old(codegen.labelTag) == 0 ==> codegen.output == old(codegen.output) + MainCode(sc, r.v)))
    {
      hide ValidTables, ScopeOf, CheckStmt, StmtCode, ParseBlock;
      codegen.BeginMainProcedure();
      ok := ParseBlockStatement();
      if ok {
        ok := TryReadToken(Dot);
      }
      codegen.FinalizeMainProcedure();
      ghost var r := ParseBlock(old(tokens));
      if ok {
        ghost var code := StmtCode(old(Sc()), r.v, old(codegen.labelTag)).code;
        Emitted(old(codegen.output), [RspToRbp], code);
        Emitted(old(codegen.output), [RspToRbp] + code, [RbpToRsp, Ret]);
      }
    }

    // ---------- declarations ----------

    ghost function Now(): Tables
      requires Valid()
      reads this
    {
      Tables(Sc(), includes)
    }

    /** Success is exactly a result of the declarations; then the tables and the tokens are its. */
    ghost predicate TookDecl(ok: bool, r: Option<(Tables, seq<Token>)>)
      reads this
    {
      (ok <==> r.Some?) && (ok ==> Valid() && Now() == r.value.0 && tokens == r.value.1)
    }

    /** The names of a group; running into the end of the file leaves no tokens. */
    method ParseNameList() returns (names: seq<Name>)
      modifies this`tokens
      ensures var r := ParseNames(old(tokens));
        (r.Got? && names == r.v && tokens == r.rest) || (r.Fail? && tokens == [])
    {
      names := [];
      var more := true;
      PrependNothing(tokens);
      while more
        invariant more ==> ParseNames(old(tokens)) == PrependNames(names, ParseNames(tokens))
        invariant !more ==>
                    ParseNames(old(tokens)) == Got(names, tokens) || (ParseNames(old(tokens)).Fail? && tokens == [])
        decreases more, |tokens|
      {
        NameRound(names, tokens);
        names := names + [Peek(tokens)];
        ReadToken();
        more := TryReadToken(Comma);
      }
    }

    /** Enters the names of a group; a name that is taken is an error. */
    method DeclareAllNames(names: seq<Name>, t: int) returns (ok: bool)
      requires Valid() && ValidId(types, t) && Den(types, t).Some?
      modifies this`variables
      ensures Valid()
      ensures var c := DeclareVars(old(Sc()), names, Den(types, t).value); (ok <==> c.Some?) && (ok ==> Sc() == c.value)
      ensures ok <==> GoodNames(old(Sc()), names)
      ensures ok ==> EntersNames(old(Sc()), names, Den(types, t).value, Sc())
    {
      hide ValidTables, ScopeOf, Den, GoodNames, EntersNames;
      ghost var ty := Den(types, t).value;
      NamesEntered(Sc(), names, ty);
      for i := 0 to |names|
        invariant Valid()
        invariant DeclareVars(old(Sc()), names, ty) == DeclareVars(Sc(), names[i..], ty)
      {
        ScopeEntries(types, variables, typedefs, functions, names[i]);
        assert names[i..][1..] == names[i + 1..];
        if names[i] in variables {
          return false;
        }
        NewVariable(types, variables, typedefs, functions, names[i], t);
        variables := variables[names[i] := t];
      }
      ok := true;
    }

    /** `a, b : T;` */
    method ParseVariableGroup() returns (ok: bool)
      requires Valid()
      modifies this`tokens, this`types, this`variables
      ensures Valid()
      ensures var r := DeclareGroupAt(old(Sc()), old(tokens));
        (ok <==> r.Some?) && (ok ==> Sc() == r.value.0 && tokens == r.value.1)
    {
      hide ValidTables, ScopeOf, Den, ParseNames, ParseType, Resolve, DeclareVars, DeclareGroupAt;
      GroupParts(Sc(), tokens);
      var names := ParseNameList();
      ok := TryReadToken(Colon);
      if !ok {
        return;
      }
      var t;
      ok, t := ParseTypeExpr();
      if !ok {
        return;
      }
      ok := DeclareAllNames(names, t);
      if ok {
        ok := TryReadToken(Semicolon);
      }
    }

    /** VAR and its groups, as long as an identifier follows. */
    method ParseVariableDeclarationBlock() returns (ok: bool)
      requires Valid() && Peek(tokens) == KVar
      modifies this`tokens, this`types, this`variables
      ensures Valid() && TookDecl(ok, DeclareNext(files, old(tokens), old(Now())))
    {
      hide ValidTables, ScopeOf, DeclareNext, DeclareGroupsAt, DeclareGroupAt;
      DeclareVarNext(files, tokens, Now());
      ReadToken();
      ghost var start, sc := tokens, Sc();
      var more := true;
      while more
        invariant Valid()
        invariant more ==> DeclareGroupsAt(sc, start) == DeclareGroupsAt(Sc(), tokens)
        invariant !more ==> DeclareGroupsAt(sc, start) == Some((Sc(), tokens))
        decreases more, |tokens|
      {
        DeclareGroupsStep(Sc(), tokens);
        GroupShorter(Sc(), tokens);
        ok := ParseVariableGroup();
        if !ok {
          return;
        }
        more := Peek(tokens).Id?;
      }
      ok := true;
    }

    method ParseTypeDefinition() returns (ok: bool)
      requires Valid() && Peek(tokens) == KType
      modifies this`tokens, this`types, this`typedefs
      ensures Valid() && TookDecl(ok, DeclareNext(files, old(tokens), old(Now())))
    {
      hide ValidTables, ScopeOf, Den, ParseType, Resolve, DeclareNext, ValidId, Extends, ValidTypes;
      AliasNext(files, tokens, Now());
      ReadToken();
      if !Peek(tokens).Id? {
        return false;
      }
      var alias := Peek(tokens);
      ReadToken();
      ok := TryReadToken(Equal);
      if !ok {
        return;
      }
      ok := ParseAliasedType(alias);
    }

    /** The type of an alias and the semicolon behind it. */
    method ParseAliasedType(alias: Name) returns (ok: bool)
      requires Valid()
      modifies this`tokens, this`types, this`typedefs
      ensures Valid()
      ensures var te := ParseType(old(tokens)); var sc := old(Sc());
        var ty := if te.Got? then Resolve(sc.aliases, te.v) else None;
        && (ok <==> ty.Some? && Peek(te.rest) == Semicolon && alias !in sc.aliases)
        && (ok ==> tokens == te.rest[1..] && Sc() == sc.(aliases := sc.aliases[alias := ty.value]))
    {
      hide ValidTables, ScopeOf, Den, ParseType, Resolve, ValidId, Extends, ValidTypes;
      var t;
      ok, t := ParseTypeExpr();
      if !ok {
        return;
      }
      ok := TryReadToken(Semicolon);
      if !ok {
        return;
      }
      ok := DeclareAlias(alias, t);
    }

    method DeclareAlias(alias: Name, t: int) returns (ok: bool)
      requires Valid() && ValidId(types, t)
      modifies this`typedefs
      ensures Valid() && Den(types, t).Some?
      ensures ok <==> alias !in old(Sc()).aliases
      ensures ok ==> Sc() == old(Sc()).(aliases := old(Sc()).aliases[alias := Den(types, t).value])
    {
      hide ValidTables, ScopeOf, Den;
      ScopeEntries(types, variables, typedefs, functions, alias);
      NewAlias(types, variables, typedefs, functions, alias, t);
      ok := alias !in typedefs;
      if ok {
        typedefs := typedefs[alias := t];
      }
    }

    method DeclareFunction(name: Name, f: Function) returns (ok: bool)
      requires Valid() && ValidFunction(types, f)
      modifies this`functions
      ensures Valid()
      ensures ok <==> name !in old(Sc()).funcs
      ensures ok ==> Sc() == old(Sc()).(funcs := old(Sc()).funcs[name := SigOf(types, f)])
    {
      hide ValidTables, ScopeOf, SigOf, ValidFunction;
      ScopeEntries(types, variables, typedefs, functions, name);
      NewFunction(types, variables, typedefs, functions, name, f);
      ok := name !in functions;
      if ok {
        functions := functions[name := f];
      }
    }

    /** One foreign parameter: only a builtin type name is taken. */
    method ParseForeignParameter(params: seq<int>, ghost done: seq<Option<Builtin>>) returns (params': seq<int>)
      requires Valid() && (forall i :: 0 <= i < |params| ==> IsBuiltin(params[i]))
      requires BuiltinTypes(params) == ParamTypes(done)
      modifies this`tokens, this`types
      ensures Valid() && Sc() == old(Sc()) && forall i :: 0 <= i < |params'| ==> IsBuiltin(params'[i])
      ensures var typed := Peek(old(tokens)).TypeName?;
        && BuiltinTypes(params') == ParamTypes(done + [if typed then Some(old(tokens)[0].builtin) else None])
        && tokens == if typed then old(tokens)[1..] else old(tokens)
    {
      hide ValidTables, ScopeOf, ParamTypes, BuiltinTypes;
      ParamTypesAppend(done, if Peek(tokens).TypeName? then Some(tokens[0].builtin) else None);
      params' := params;
      if Peek(tokens).TypeName? {
        var ok, t := ParseTypeExpr();
        TypesValid();
        DenKinds(types, t);
        BuiltinTypesAppend(params, t);
        params' := params + [t];
      }
    }

    /** The parameter types of a foreign function. Only an empty slot is skipped: any token that is no
        builtin type name fails at the closing parenthesis. */
    method ParseForeignParameters() returns (ok: bool, params: seq<int>)
      requires Valid()
      modifies this`tokens, this`types
      ensures Valid() && Sc() == old(Sc())
      ensures forall i :: 0 <= i < |params| ==> IsBuiltin(params[i])
      ensures var r := ParseParams(old(tokens));
        (ok <==> r.Got?) && (ok ==> tokens == r.rest && BuiltinTypes(params) == ParamTypes(r.v))
    {
      hide ValidTables, ScopeOf, ParseParamList, ParamTypes, PrependParams, BuiltinTypes, Extends, ValidTypes;
      params := [];
      ghost var done: seq<Option<Builtin>> := [];
      NoParamTypes();
      PrependNothing(tokens);
      var more := Peek(tokens) != RParen;
      while more
        invariant Valid() && Sc() == old(Sc())
        invariant forall i :: 0 <= i < |params| ==> IsBuiltin(params[i])
        invariant BuiltinTypes(params) == ParamTypes(done)
        invariant more ==> ParseParams(old(tokens)) == PrependParams(done, ParseParamList(tokens))
        invariant !more ==> ParseParams(old(tokens)) == if Peek(tokens) == RParen then Got(done, tokens[1..]) else Fail
        decreases more, |tokens|
      {
        ParamRound(done, tokens);
        ghost var p := if Peek(tokens).TypeName? then Some(tokens[0].builtin) else None;
        params := ParseForeignParameter(params, done);
        done := done + [p];
        more := TryReadToken(Comma);
      }
      ok := TryReadToken(RParen);
    }

    /** A type, or VOID. */
    method ParseReturnType() returns (ok: bool, t: int)
      requires Valid()
      modifies this`tokens, this`types
      ensures Valid() && Sc() == old(Sc())
      ensures var r := ParseReturn(old(tokens)); var ret := if r.Got? then ResolveReturn(old(Sc()), r.v) else None;
        && (ok <==> ret.Some?)
        && (ok ==>
              && tokens == r.rest && (t == VOID || ValidId(types, t))
              && (if t == VOID then None else Den(types, t)) == ret.value)
      ensures Peek(old(tokens)) == KVoid ==> ok && t == VOID
      ensures ok && Peek(old(tokens)) != KVoid ==>
                t != VOID && Den(types, t) == Resolve(old(Sc()).aliases, ParseType(old(tokens)).v)
    {
      hide ValidTables, ScopeOf, ParseType, Resolve;
      var void := TryReadToken(KVoid);
      if void {
        return true, VOID;
      }
      ok, t := ParseTypeExpr();
    }

    /** The signature of a foreign function, from behind `(`. */
    method ParseSignature() returns (ok: bool, f: Function)
      requires Valid()
      modifies this`tokens, this`types
      ensures Valid() && Sc() == old(Sc()) && ValidFunction(types, f)
      ensures var r := SignatureAt(old(Sc()), old(tokens));
        (ok <==> r.Some?) && (ok ==> SigOf(types, f) == r.value.0 && tokens == r.value.1)
    {
      hide ValidTables, ScopeOf, Den, ParseParams, ParseReturn, ResolveReturn, ParamTypes, BuiltinTypes;
      f := Function(VOID, []);
      var params;
      ok, params := ParseForeignParameters();
      if ok {
        ok := TryReadToken(Colon);
      }
      if !ok {
        return;
      }
      var t;
      ok, t := ParseReturnType();
      if !ok {
        return;
      }
      f := Function(t, params);
      ok := TryReadToken(Semicolon);
    }

    method ParseForeignFunctionDeclaration() returns (ok: bool)
      requires Valid() && Peek(tokens) == KFfi
      modifies this`tokens, this`types, this`functions
      ensures Valid() && TookDecl(ok, DeclareNext(files, old(tokens), old(Now())))
    {
      hide ValidTables, ScopeOf, ValidFunction, SigOf, SignatureAt, DeclareNext;
      ForeignNext(files, tokens, Now());
      ReadToken();
      if !Peek(tokens).Id? {
        return false;
      }
      var name := Peek(tokens);
      ReadToken();
      ok := TryReadToken(LParen);
      if !ok {
        return;
      }
      var f;
      ok, f := ParseSignature();
      if ok {
        ok := DeclareFunction(name, f);
      }
    }

    /** A path is entered before its file is read, so a repeated INCLUDE is nothing. */
    method ParseInclude() returns (ok: bool)
      requires Valid() && Peek(tokens) == KInclude
      modifies this`tokens, this`fileNames, this`variables, this`typedefs, this`functions, this`includes, this`types
      ensures Valid() && fileNames == old(fileNames) && old(includes) <= includes
      ensures TookDecl(ok, DeclareNext(files, old(tokens), old(Now())))
      decreases files.Keys - includes, |tokens|, 2
    {
      hide ValidTables, ScopeOf, DeclareBlock, DeclareNext;
      ghost var start := tokens;
      if !(Peek(tokens[1..]).StringConst? && Peek(tokens[1..][1..]) == Semicolon) {
        NotInclude(files, tokens, Now());
      }
      ReadToken();
      if !Peek(tokens).StringConst? {
        return false;
      }
      var path := Peek(tokens).path;
      ReadToken();
      ok := TryReadToken(Semicolon);
      if !ok {
        return;
      }
      IncludeNext(files, start, Now());
      if path in includes {
        return true;
      }
      ok := ReadFile(path);
    }

    /** A file whose path is seen for the first time: its tokens replace the outer ones until its
        end, and then these come back, on failure too. */
    method ReadFile(path: string) returns (ok: bool)
      requires Valid() && path !in includes
      modifies this`tokens, this`fileNames, this`variables, this`typedefs, this`functions, this`includes, this`types
      ensures Valid() && fileNames == old(fileNames) && tokens == old(tokens) && old(includes) <= includes
      ensures path !in files ==> !ok
      ensures path in files ==>
        var r := DeclareBlock(files, files[path], old(Now()).(includes := old(includes) + {path}));
        && (ok <==> r.Some? && Peek(r.value.1) == EndOfFile)
        && (ok ==> Now() == r.value.0)
      decreases files.Keys - includes, |tokens|, 1
    {
      hide ValidTables, ScopeOf, DeclareBlock;
      includes := includes + {path};
      if path !in files {
        return false;
      }
      var outer := tokens;
      tokens := files[path];
      fileNames := fileNames + [path];
      ok := ParseDeclarationBlock();
      ok := ok && Peek(tokens) == EndOfFile;
      fileNames := fileNames[..|fileNames| - 1];
      tokens := outer;
    }

    /** Declarations as long as there are any. */
    method ParseDeclarationBlock() returns (ok: bool)
      requires Valid()
      modifies this`tokens, this`fileNames, this`variables, this`typedefs, this`functions, this`includes, this`types
      ensures Valid() && fileNames == old(fileNames) && old(includes) <= includes
      ensures TookDecl(ok, DeclareBlock(files, old(tokens), old(Now())))
      decreases files.Keys - includes, |tokens|, 3
    {
      hide ValidTables, ScopeOf, DeclareBlock, DeclareNext;
      ghost var r := DeclareBlock(files, tokens, Now());
      while StartsDecl(Peek(tokens))
        invariant Valid() && fileNames == old(fileNames) && old(includes) <= includes && |tokens| <= |old(tokens)|
        invariant r == DeclareBlock(files, tokens, Now())
        decreases |tokens|
      {
        ghost var ts, t := tokens, Now();
        DeclareBlockStep(files, ts, t);
        NextShorter(files, ts, t);
        if Peek(tokens) == KVar {
          ok := ParseVariableDeclarationBlock();
        } else if Peek(tokens) == KType {
          ok := ParseTypeDefinition();
        } else if Peek(tokens) == KFfi {
          ok := ParseForeignFunctionDeclaration();
        } else {
          ok := ParseInclude();
        }
        if !ok {
          return;
        }
      }
      DeclareBlockStep(files, tokens, Now());
      ok := true;
    }

    // ---------- programs ----------

    /** A whole program; nothing may follow its final dot. */
    method Compile() returns (ok: bool)
      requires Valid() && codegen.output == [] && codegen.labelTag == 0
      modifies this`tokens, this`fileNames, this`variables, this`typedefs, this`functions, this`includes
      modifies this`types, codegen
      ensures Valid() && fileNames == old(fileNames)
      ensures var p := ParseProgram(files, old(tokens), old(Now()));
        && (ok <==> p.Some?)
        && (ok ==> Sc() == p.value.scope && codegen.output == MainCode(p.value.scope, p.value.body))
    {
      hide ValidTables, ScopeOf, DeclareBlock, ParseBlock, CheckStmt, MainCode;
      ok := ParseDeclarationBlock();
      if !ok {
        return;
      }
      ghost var body := ParseBlock(tokens);
      ok := ParseMainBlockStatement();
      if ok {
        assert [] + MainCode(Sc(), body.v) == MainCode(Sc(), body.v);
        ok := Peek(tokens) == EndOfFile;
      }
    }
  }

  lemma NotInclude(files: Files, ts: seq<Token>, t: Tables)
    requires Peek(ts) == KInclude && !(Peek(ts[1..]).StringConst? && Peek(ts[1..][1..]) == Semicolon)
    ensures DeclareNext(files, ts, t).None?
  {}

  lemma IncludeNext(files: Files, ts: seq<Token>, t: Tables)
    requires Peek(ts) == KInclude && Peek(ts[1..]).StringConst? && Peek(ts[1..][1..]) == Semicolon
    ensures var path := ts[1..][0].path; var rest := ts[1..][1..][1..];
      && (path in t.includes ==> DeclareNext(files, ts, t) == Some((t, rest)))
      && (path !in t.includes && path !in files ==> DeclareNext(files, ts, t).None?)
      && (path !in t.includes && path in files ==>
            var r := DeclareBlock(files, files[path], t.(includes := t.includes + {path}));
            DeclareNext(files, ts, t) ==
              if r.Some? && Peek(r.value.1) == EndOfFile then Some((r.value.0, rest)) else None)
  {
    hide ParseDecls, Declare;
  }

  lemma NextShorter(files: Files, ts: seq<Token>, t: Tables)
    ensures DeclareNext(files, ts, t).Some? ==> |DeclareNext(files, ts, t).value.1| < |ts|
  {}

  lemma NoParamTypes()
    ensures ParamTypes([]) == []
  {}

  lemma {:induction false} BuiltinTypesAppend(ids: seq<int>, t: int)
    requires (forall i :: 0 <= i < |ids| ==> IsBuiltin(ids[i])) && IsBuiltin(t)
    ensures BuiltinTypes(ids + [t]) == BuiltinTypes(ids) + [BuiltinOf(t)]
  {}
}
