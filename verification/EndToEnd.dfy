/** From the token sequence to the behaviour of the machine. */
module EndToEnd {
  import opened Words
  import opened Syntax
  import opened Typing
  import opened Machine
  import opened Emission
  import opened Grammar
  import opened RoundTrip
  import opened Semantics
  import opened Soundness
  import opened Simulation
  import opened StmtSim
  import opened Preservation
  import opened Declarations
  import opened Splicing
  import OnePass

  const NOTHING := Tables(EMPTY_SCOPE, {})

  function PrintProgram(ds: seq<Decl>, body: Stmt): seq<Token> {
    PrintDecls(ds) + PrintStmt(body) + [Dot]
  }

  lemma BlockFirst(body: Stmt, rest: seq<Token>)
    requires body.Block?
    ensures Peek(PrintStmt(body) + rest) == KBegin
  {
    hide PrintItems;
  }

  /** Every well-formed program is accepted, with the tables of its declarations and its own tree
      as the main block. */
  lemma {:induction false} ProgramComplete(files: Files, ds: seq<Decl>, body: Stmt)
    requires FitsDecls(ds) && body.Block? && FitsStmt(body)
    ensures ParseProgram(files, PrintProgram(ds, body), NOTHING)
         == match Declare(files, ds, NOTHING)
            case None => None
            case Some(t) => if CheckStmt(t.scope, body) then Some(Program(t.scope, body)) else None
  {
    hide PrintStmt, PrintDecls, CheckStmt, FitsStmt, Declare, ParseDecls, ParseBlock, ParseStmt;
    var rest := PrintStmt(body) + [Dot];
    BlockFirst(body, [Dot]);
    Regroup2(PrintDecls(ds), PrintStmt(body), [Dot]);
    DeclsComplete(ds, rest);
    StmtComplete(body, [Dot]);
    BlockParse(rest);
  }

  lemma BlockParse(ts: seq<Token>)
    requires Peek(ts) == KBegin
    ensures ParseStmt(ts) == ParseBlock(ts)
  {}

  lemma BlockIsBlock(ts: seq<Token>)
    ensures ParseBlock(ts).Got? ==> Peek(ts) == KBegin && ParseBlock(ts).v.Block?
  {
    hide ParseItems;
  }

  /** Conversely every accepted token sequence is the printing of such a program. */
  lemma ProgramSound(files: Files, ts: seq<Token>) returns (ds: seq<Decl>, rest: seq<Token>)
    requires ParseProgram(files, ts, NOTHING).Some?
    ensures var p := ParseProgram(files, ts, NOTHING).value;
      && ts == PrintProgram(ds, p.body) + rest && Peek(rest) == EndOfFile
      && FitsDecls(ds) && p.body.Block? && FitsStmt(p.body)
      && Declare(files, ds, NOTHING).Some? && p.scope == Declare(files, ds, NOTHING).value.scope
      && CheckStmt(p.scope, p.body)
  {
    hide PrintStmt, PrintDecls, CheckStmt, FitsStmt, Declare, ParseDecls, ParseBlock, ParseStmt, OpenIf;
    DeclsSound(ts);
    ds := ParseDecls(ts).v;
    var r1 := ParseDecls(ts).rest;
    BlockIsBlock(r1);
    BlockParse(r1);
    StmtSound(r1);
    var b := ParseBlock(r1);
    rest := Advance(b.rest);
    assert b.rest == [Dot] + rest;
    Regroup(PrintDecls(ds), PrintStmt(b.v), [Dot], rest);
  }

  /** A program with INCLUDE is accepted exactly when its files can be spliced in, no identifier
      follows the declarations, and the one spliced token sequence is accepted; and then both are the
      same program. */
  lemma IncludesCompileAway(files: Files, ts: seq<Token>)
    ensures var s := Splice(files, ts, {});
      ParseProgram(files, ts, NOTHING).Some? <==>
        s.Some? && !Peek(s.value.rest).Id? && ParseProgram(map[], s.value.tokens + s.value.rest, NOTHING).Some?
    ensures ParseProgram(files, ts, NOTHING).Some? ==>
      var s := Splice(files, ts, {}).value;
      ParseProgram(map[], s.tokens + s.rest, NOTHING) == ParseProgram(files, ts, NOTHING)
  {
    hide Splice, ParseDecls, Declare, CheckStmt, ParseBlock, DeclareBlock, ParseStmt, LastIsVar;
    SpliceRest(files, ts);
    var s := Splice(files, ts, {});
    if s.Some? && Peek(s.value.rest).Id? {
      BlockIsBlock(s.value.rest);
    } else {
      IncludeSplicing(files, ts, NOTHING);
    }
  }

  lemma SpliceRest(files: Files, ts: seq<Token>)
    ensures Splice(files, ts, {}).Some? ==>
              ParseDecls(ts).Got? && Splice(files, ts, {}).value.rest == ParseDecls(ts).rest
    ensures DeclareBlock(files, ts, NOTHING).Some? ==> DeclareBlock(files, ts, NOTHING).value.1 == ParseDecls(ts).rest
  {
    hide Splice, ParseDecls, Declare, Flatten;
    SpliceFlattens(files, ts, {});
  }

  /** What the compiled main procedure does about a source run of the given fuel. */
  ghost predicate Implements(P: seq<Instr>, c: Scope, o: Env, m: State, ret: Word, caller: Stack, fuel: nat,
                             r: Outcome)
  {
    match r
    case Done(s, ok) =>
      ok ==> exists n :: var m' := Run(P, o, m, n);
               && m'.status == Returned(ret) && m'.stk == caller && m'.rsp == m.rsp + 8 && m'.rbp == m.rsp
               && m'.trace == s.tr && Represents(c, o, s.st, m'.mem)
    case Trapped(k, s, ok) => ok ==> exists n :: Traps(P, c, o, s, Run(P, o, m, n), k)
    case OutOfFuel(s, ok) => ok ==> exists n :: n >= fuel && GoesOnFrom(c, o, s, Run(P, o, m, n))
    case Stray => false
  }

  /** The code of every accepted program implements its main block: it is checked, so no run strays;
      a run that ends returns, a trap is the same trap at the instruction that divides by zero or goes
      through null, and a run that goes on keeps the machine going, each with the same globals and
      the same trace. */
  lemma CompilerCorrect(files: Files, ts: seq<Token>, o: Env, m: State, ret: Word, caller: Stack, fuel: nat)
    requires ParseProgram(files, ts, NOTHING).Some?
    requires Entry(ParseProgram(files, ts, NOTHING).value.scope, o, m, ret, caller)
    ensures var p := ParseProgram(files, ts, NOTHING).value;
      Implements(MainCode(p.scope, p.body), p.scope, o, m, ret, caller, fuel,
                 Exec(p.scope, o, p.body, Launch(p.scope), fuel))
  {
    hide Step, Run, Exec, MainCode, Entry, CheckStmt, DeclareBlock, ParseBlock, Represents, WellTyped, Linked;
    var p := ParseProgram(files, ts, NOTHING).value;
    var c, body := p.scope, p.body;
    InitialTyped(c);
    ExecSound(c, o, body, Launch(c), fuel);
    match Exec(c, o, body, Launch(c), fuel)
    case Done(s, ok) =>
      if ok {
        TerminationPreserved(c, o, body, m, ret, caller, fuel, s);
      }
    case Trapped(k, s, ok) =>
      if ok {
        TrapPreserved(c, o, body, m, ret, caller, fuel, k, s);
      }
    case OutOfFuel(_, ok) =>
      if ok {
        var n := PartialRun(c, o, body, m, ret, caller, fuel);
      }
  }

  /** The one-pass compiler on a source file and the files it may include. It accepts exactly the
      programs of the grammar that check, and emits exactly the code of their trees. */
  method Translate(fileName: string, source: seq<Token>, files: Files) returns (ok: bool, code: seq<Instr>)
    ensures ok <==> ParseProgram(files, source, NOTHING).Some?
    ensures ok ==> var p := ParseProgram(files, source, NOTHING).value; code == MainCode(p.scope, p.body)
  {
    hide ParseProgram, MainCode;
    var compiler := new OnePass.Compiler(fileName, source, files);
    ok := compiler.Compile();
    code := compiler.codegen.output;
  }
}
