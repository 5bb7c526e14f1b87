# CERIcompiler, modelled and verified

CERIcompiler translates a small Pascal-like language to x86-64 assembly in one pass: a recursive
descent parser checks types and emits instructions while it reads tokens, with no tree in between,
and the emitted code uses the processor as a stack machine. This project models the parser, the
type checker, the emitter, the source language and the part of the processor that the emitted code
uses, and proves that the compiled main procedure behaves as the source program.

How the files build on each other:

- `Words`, `Memory`, `Machine`: 64-bit words, byte-addressed data memory, and the instructions the
  emitter writes as a deterministic step machine (registers, flags, stack, x87 stack, trace).
- `Syntax`, `Typing`, `Semantics`: tokens and trees, the static semantics over structural types, and
  the intended meaning of trees with fuel for loops. Names are tokens, because a VAR block takes
  any token as a name.
- `Emission`, `Labels`: the code of a tree as a pure function of the tree and the label counter, and
  the integrity of its labels.
- `Registers`: what an expression leaves in the registers that pass arguments.
- `Simulation`, `Steps`, `Fragments`, `ExprSim`, `StmtSim`, `Preservation`: what each instruction
  and each emitted sequence does, then forward simulation of expressions, statements and programs.
- `Soundness`, `Fuel`, `ForCounting`: type soundness, the role of the fuel, and how often the body
  of a FOR runs.
- `Grammar`, `RoundTrip`, `Parentheses`: the grammar of the parser as parsing and printing of trees.
- `TypeTable`, `FrontEnd`, `StatementTrees`, `CodeGenerator`, `OnePass`: the imperative side. `CodeGen`
  and `Compiler` are classes with the fields of the original; every method is proved against the
  tree functions above.
- `Declarations`, `Splicing`: declaration blocks, and INCLUDE as the splicing of token sequences.
- `EndToEnd`: from the token sequence to the behaviour of the machine.
- `Isolation`, `SilentCode`, `ExprSafety`: looking at a part of a run by itself, without the stack below
  or the program around it; which code writes memory; expressions with the departures included.
- `Departures`, `SoundFragment`, `StaticConditions`, `DataLayout`, `MachineSafety`: see the next section.
- `Arithmetic`, `Precedence`, `TypeRules`, `CallingConvention`, `DeclaredTables`: what the language is, said
  without the functions that the compiler's model and its specification share: results in plain numbers,
  every operator, type and register written out, and the entries of the symbol tables one by one.

## Where the code departs from its evident intent

The source semantics keeps the intended meaning. Every result carries a flag that is cleared exactly
where an emitted sequence computes something else: a literal in [2^31, 2^32), `&&` unless its left
operand implies its right one, INTEGER `%` unless quotient and remainder coincide, a FOR test with
operands on different sides of 2^63, INTEGER to DOUBLE from 2^63 on, DOUBLE to INTEGER out of range,
DOUBLE and BOOLEAN to CHAR, comparisons of unordered DOUBLEs, and arguments whose evaluation
overwrites an argument register that is already loaded. The preservation theorems are stated for
runs that keep the flag up; the meaning itself never depends on it. Around that:

- `Departures` says what each of these sequences does as written and exactly when that is right.
- `SoundFragment` gives a condition on the text of a program under which the flag is never cleared,
  so preservation holds without any condition on the run.
- `MachineSafety` holds for every accepted program and every run, departures included: the machine
  never gets stuck; after every single step, whether it goes on, returns or faults, BOOLEAN words are
  0 or all ones and pointers are null or the address of a global of their type; it faults only where
  it divides by zero or goes through null; and no expression or statement ever pops a word that was
  on the stack before it, so the return address is always found.
- `DataLayout` says when globals of one byte (BOOLEAN and CHAR) are safe under eight-byte accesses.
  The preservation theorems ask for disjoint eight-byte footprints, and this is shown to be the case
  exactly when all globals but the last one emitted are eight bytes wide.

Where the documentation and the code disagree the model follows the code: README.md:64 lists a
conversion from CHAR to INTEGER, which the emitter rejects; README.md:75-78 lists INTEGER `%` and
`&&`, which compute what `Departures` says.

## Model

| member | source | states |
|---|---|---|
| `EndToEnd.Translate` | src/compiler.cpp:48-74 | the compiler accepts a token sequence exactly when it is a program of the grammar whose tables and main block check, and then the instructions written are exactly the code of its main block as a tree |
| `EndToEnd.CompilerCorrect` | src/compiler.cpp:904-924 | for every accepted program, entry state and fuel: the source run never strays; if it stays where the emitted sequences agree with their meaning, its end is the machine's return, its trap the machine's fault at the instruction that divides by zero or goes through null, and its going on at least as many machine steps, each time with equal globals and the same trace |
| `EndToEnd.ProgramComplete` | src/compiler.cpp:904-924 | the printing of fitting declarations and a fitting main block is accepted exactly when the declarations succeed and the block checks, with those tables and that very tree |
| `EndToEnd.ProgramSound` | src/compiler.cpp:904-924 | every accepted token sequence is such a printing, up to the end of file |
| `EndToEnd.IncludesCompileAway` | src/compiler.cpp:524-612 | a program with INCLUDE is accepted iff its files can be spliced in, no identifier follows the declarations and the one spliced token sequence is accepted without any file; then both have the same tables and main block |
| `Preservation.TerminationPreserved` | src/compiler.cpp:904-912 | a finished source run: the machine returns to its caller with the caller's stack, the same trace, every global equal to its source value, and the entry %rsp in %rbp |
| `Preservation.TrapPreserved` | src/compiler.cpp:890-902 | a source trap is the machine's fault at the dividing or dereferencing instruction, with a zero divisor or a null address, after the same trace and with the globals the source run stopped in |
| `Preservation.PartialRun` | src/compiler.cpp:815-854 | a source run cut off after some fuel: at least that many machine steps without stopping, reaching exactly its trace and its globals |
| `Preservation.DivergencePreserved` | src/compiler.cpp:815-854 | a source run that never ends: for every k the machine takes k steps without stopping, its trace is a prefix of the source trace, and every trace with its globals that the source run passes is reached |
| `Preservation.PrologueRuns` | src/codegen/x86/codegen.cpp:17-24 | the first instruction establishes the simulation between the entry state and the initial source state |
| `Preservation.EpilogueRuns` | src/codegen/x86/codegen.cpp:26-30 | from any state with any number of leaked words the last two instructions return to the caller's address with the caller's stack |
| `Fuel.MoreFuel` | src/compiler.cpp:815-854 | a source run that comes to an end comes to the same end under any more fuel, so an end and divergence exclude each other |
| `SoundFragment.EvalClean` | src/codegen/x86/codegen.cpp:67-287 | in the statically described fragment every well-typed expression evaluates without meeting a departure, provided DOUBLEs compare ordered |
| `SoundFragment.ExecClean` | src/compiler.cpp:788-902 | the same for every run of every statement of the fragment, a FOR between literals below 2^63 that its body leaves alone included |
| `SoundFragment.FragmentPreserved` | src/compiler.cpp:904-924 | for programs of the fragment semantic preservation holds with no condition on the run |
| `StaticConditions.FragmentExactly` | src/codegen/x86/codegen.cpp:67-287 | an expression is in the fragment iff no expression inside it is a literal in [2^31, 2^32), `&&`, INTEGER `%`, a conversion other than the faithful ones, or a call whose arguments may overwrite each other |
| `StaticConditions.StmtFragmentExactly` | src/compiler.cpp:788-902 | a statement is in the fragment iff the expressions of every statement inside it are, and every FOR inside it is between small literals with a body that spares its variable |
| `ExprSafety.ExprSettles` | src/codegen/x86/codegen.cpp:67-287 | departures included, every expression from every represented state pushes exactly one word of its type, or faults where it divides by zero or goes through null, with the rest of the state as before |
| `ExprSafety.ArgsSettle` | src/compiler.cpp:281-301 | departures included, evaluating and passing arguments leaves the stack where it was |
| `ExprSafety.InvokeSettles` | src/compiler.cpp:251-314 | departures included, a call nets exactly its result |
| `MachineSafety.ExprKeepsStack` | src/codegen/x86/codegen.cpp:67-287 | at every step of an expression the stack is some words over what it was before, so nothing below is popped even for a moment, and data memory is unchanged |
| `MachineSafety.AssignSettles` | src/compiler.cpp:724-786 | departures included, an assignment nets zero words, keeps globals well typed at every step, and faults only where it divides by zero or goes through null |
| `MachineSafety.CallStmtSettles` | src/compiler.cpp:92-105 | a call as a statement leaves exactly one word if its function is not VOID, and none otherwise |
| `MachineSafety.StmtSettles` | src/compiler.cpp:788-902 | departures included, every statement in any amount of fuel follows some outcome; after each of its machine steps, be it finished, faulted or still going, memory represents a well-typed store; and only call statements change what is left on the stack |
| `MachineSafety.StmtKeepsStack` | src/compiler.cpp:788-902 | moreover at every step the stack is some words over what it was before the statement, and what earlier calls leaked is still below |
| `Isolation.NeverBelow` | src/codegen/x86/codegen.cpp:67-287 | a run that does not get stuck on the empty stack is the same on any stack and never reaches below it |
| `Isolation.RunAlone` | src/codegen/x86/codegen.cpp:67-287 | a run that stays alive with everything around its code replaced by returns is the run of the whole program, and only its last step can write memory if only the last instruction of its code can |
| `MachineSafety.NeverStuck` | src/compiler.cpp:904-924 | any run of any accepted program after any number of steps: still going, returned to its caller with the caller's stack, or at a fault that is a division by zero or an access through null; never stuck; and always with a well-typed store in memory and, until it returns, the return address and the caller's words below the stack |
| `Steps.GetsStuck` | src/codegen/x86/codegen.cpp:17-30 | what not being stuck excludes: leaving the code, jumping to a missing label or on flags no comparison set, popping the empty stack, calling at an %rsp that is not 16-byte aligned |
| `Steps.GetsStuckOnFloats` | src/codegen/x86/codegen.cpp:509-541 | and loading on the full x87 stack, or working on too few of its words |
| `ExprSim.ExprRuns` | src/compiler.cpp:685-712 | for every well-typed expression and start state the code pushes exactly its value, or faults as the source traps, after the same trace; the stack below, the globals, %rbp and the x87 stack are kept, and every register but %rax and %rbx holds exactly what the expression is said to leave there |
| `ExprSim.OperandsRun` | src/compiler.cpp:331-419 | left operand before right operand, one word each |
| `ExprSim.ArgRuns` | src/codegen/x86/codegen.cpp:416-445 | one argument ends in its register with the stack back at its height, and every other register holds exactly what the argument leaves |
| `ExprSim.ArgsRun` | src/compiler.cpp:281-301 | for all argument lists, whatever later arguments overwrite: a callee that reads its parameters as its prototype says gets exactly the words passed, with the stack at its prior height; CallingConvention.ReadsInOrder and ArgumentRegisters say which register that is |
| `CallingConvention.ReadsInOrder` | src/codegen/x86/codegen.cpp:592-628 | section 3.2.3 of the System V AMD64 ABI: the parameter behind k regular ones is read from the k-th of %rdi, %rsi, %rdx, %rcx, %r8, %r9, and the one behind k DOUBLEs from %xmm_k |
| `CallingConvention.ArgumentRegisters` | src/compiler.cpp:281-301 | when the arguments of any accepted call have been evaluated, exactly that register holds the word passed for each parameter, which is the argument itself, a BOOLEAN as 0 or 1, unless a later argument may overwrite it |
| `CallingConvention.KeepsExactly` | src/compiler.cpp:281-301 | the flag of a call stays up iff no argument but the first contains a call or a DOUBLE `%`, and none behind three regular ones an INTEGER `*`, `/` or `%` |
| `CallingConvention.CallMeans` | src/compiler.cpp:251-314 | a call evaluates its arguments from the left, adds one event with the words the function is to see, a BOOLEAN as 0 or 1, and has the value that the function leaves in %rax, or in %xmm0 for a DOUBLE |
| `ExprSim.CallRuns` | src/compiler.cpp:251-314 | a whole call, whatever its arguments overwrite: the trace grows by the call with exactly the words passed and the result, if any, is pushed |
| `ExprSim.DerefRuns` | src/codegen/x86/codegen.cpp:95-99 | a dereference replaces the address of a global by its value, or faults on null |
| `ExprSim.IntAgrees` | src/codegen/x86/codegen.cpp:131-251 | INTEGER arithmetic as written equals its meaning exactly when the flag of the meaning is up; a sum or difference that does not fit is off by exactly 2^64 |
| `ExprSim.BoolAgrees` | src/codegen/x86/codegen.cpp:113-127 | `\|\|` and `&&` as written equal their meaning exactly when the flag is up |
| `ExprSim.FloatRelAgrees` | src/codegen/x86/codegen.cpp:282-287 | a DOUBLE comparison as written answers the ordering exactly when the pair is ordered or the operator is `>` or `>=` |
| `ExprSim.ConvAgrees` | src/codegen/x86/codegen.cpp:289-327 | a conversion as written equals its meaning when the flag is up, and only then except for INTEGER to DOUBLE |
| `Soundness.EvalSound` | src/compiler.cpp:142-224 | a well-typed expression over a well-typed store gives a value of its type or one of the two traps; a pointer value is null or the address of a global declared with exactly its target type |
| `Soundness.FollowSound` | src/compiler.cpp:735-755 | k dereferences of a variable reach null or a global of exactly the k-th target type |
| `Soundness.ExecSound` | src/compiler.cpp:788-902 | an accepted statement can only finish, trap on null or division by zero, or go on, and in each case, for every amount of fuel, the store it finishes, traps or is cut off in is well typed |
| `Arithmetic.AddComputes` | src/codegen/x86/codegen.cpp:131-156 | the code of INTEGER `+` pushes a + b, or a + b - 2^64 if that does not fit |
| `Arithmetic.SubComputes` | src/codegen/x86/codegen.cpp:158-183 | the code of INTEGER `-` pushes a - b, or a - b + 2^64 if that is negative |
| `Arithmetic.MulComputes` | src/codegen/x86/codegen.cpp:185-210 | the code of INTEGER `*`: the word pushed plus 2^64 times the word in %rdx is the product |
| `Arithmetic.DivComputes` | src/codegen/x86/codegen.cpp:212-251 | the code of INTEGER `/` and of INTEGER `%` is the same: it pushes the quotient q and leaves in %rdx the remainder r, with a = q b + r and r < b, or faults on b = 0 |
| `Arithmetic.CompareComputes` | src/codegen/x86/codegen.cpp:543-579 | the code of each INTEGER comparison pushes all ones if it holds of the unsigned numbers and zero if not |
| `Arithmetic.FloatToIntegerComputes` | src/codegen/x86/codegen.cpp:313-323 | the code of DOUBLE to INTEGER gives a number in signed range, a negative one plus 2^64, and 2^63 for any other |
| `Arithmetic.IncrementComputes` | src/codegen/x86/codegen.cpp:406-412 | the increment of a FOR stores w + 1, and 0 behind the largest word |
| `Arithmetic.AddMeans` | src/compiler.cpp:379-419 | INTEGER `l + r` evaluates l, then r, and means their sum, less 2^64 if it does not fit, with the flag up |
| `Arithmetic.SubMeans` | src/compiler.cpp:379-419 | the same for `l - r`, plus 2^64 if it is negative |
| `Arithmetic.MulMeans` | src/compiler.cpp:331-377 | the same for `l * r`: the low word of the product |
| `Arithmetic.DivMeans` | src/compiler.cpp:331-377 | division with remainder for `/` and `%`, a trap on zero; the flag of `%` is up iff quotient and remainder are the same |
| `Arithmetic.LogicMeans` | src/codegen/x86/codegen.cpp:113-127 | `\|\|` and `&&` mean what they say of both operands; the flag of `&&` is up iff the left implies the right |
| `Arithmetic.CompareMeans` | src/codegen/x86/codegen.cpp:282-287 | the six comparisons of INTEGERs as unsigned numbers |
| `Arithmetic.FloatCompareMeans` | src/codegen/x86/codegen.cpp:282-287 | the six comparisons of DOUBLEs by their ordering; on an unordered pair only the flags of `>` and `>=` are up |
| `Arithmetic.FloatMeans` | src/codegen/x86/codegen.cpp:253-273 | DOUBLE arithmetic is left op right, and `%` the result of a call fmod(left, right) |
| `Arithmetic.LiteralMeans` | src/compiler.cpp:107-140 | a literal of each kind means itself; its flag is down exactly from 2^31 up to 2^32 |
| `Arithmetic.PointerMeans` | src/compiler.cpp:142-165 | `@x` means the address of x, and `^` what is stored there, or a trap on null |
| `Arithmetic.ConversionMeans` | src/codegen/x86/codegen.cpp:289-327 | each of the nine conversions in numbers, and exactly when its flag is up |
| `Arithmetic.DisplayMeans` | src/codegen/x86/codegen.cpp:479-497 | DISPLAY prints an INTEGER as an unsigned number, a BOOLEAN as 0 or 1, a CHAR as a character and a DOUBLE as a floating-point number |
| `Arithmetic.GlobalsStart` | src/codegen/x86/codegen.cpp:43-66 | globals start as 0, 0.0, FALSE, the zero character and null |
| `Arithmetic.RoundMeans` | src/codegen/x86/codegen.cpp:404-412 | a finished round of a FOR is followed by the next one with the variable one up, and zero behind the largest word |
| `TypeRules.BinaryAccepted` | src/compiler.cpp:331-419 | `+`, `-`, `*`, `/` and `%` are accepted for exactly two INTEGERs or two DOUBLEs, `\|\|` and `&&` for exactly two BOOLEANs, with that type |
| `TypeRules.ComparisonAccepted` | src/compiler.cpp:685-712 | every comparison is accepted for exactly two INTEGERs or two DOUBLEs and gives a BOOLEAN |
| `TypeRules.ConversionAccepted` | src/codegen/x86/codegen.cpp:289-327 | exactly nine pairs of types convert |
| `TypeRules.PointersAccepted` | src/compiler.cpp:142-224 | `@x` has type pointer to the type of x, and `^` takes one pointer off, and nothing else |
| `TypeRules.TypesWritten` | src/compiler.cpp:614-660 | the type of each type name, of a caret and of an alias |
| `TypeRules.CallAccepted` | src/compiler.cpp:251-314 | a call is accepted iff its function is declared without pointer parameters, with at most six regular and eight DOUBLE ones and a result of VOID, INTEGER, DOUBLE or CHAR, and there is one argument of exactly the right type for each; in an expression not for VOID |
| `TypeRules.AssignmentAccepted` | src/compiler.cpp:724-786 | an assignment with k carets is accepted iff the variable is exactly k pointers away from the type of the value |
| `TypeRules.StatementsAccepted` | src/compiler.cpp:788-888 | conditions are BOOLEAN, the variable and the limits of a FOR INTEGER without carets, and anything but a pointer is displayed |
| `Fragments.LoadImmRuns` | src/codegen/x86/codegen.cpp:71-85 | what a literal of any size leaves on the stack |
| `Fragments.IntBinRuns` | src/codegen/x86/codegen.cpp:113-251 | every INTEGER and BOOLEAN operation as written, from two words on the stack, with the divide fault; the sum and the difference pushed are off by exactly 2^64 if they do not fit, and the product is the remainder modulo 2^64 |
| `Fragments.AndRuns` | src/codegen/x86/codegen.cpp:113-119 | the `&&` sequence pushes %rax, which it does not change |
| `Fragments.DoubleOpRuns` | src/codegen/x86/codegen.cpp:537-541 | DOUBLE arithmetic replaces two words by left op right and leaves the x87 stack as it was |
| `Fragments.FmodRuns` | src/codegen/x86/codegen.cpp:253-273 | DOUBLE `%` calls fmod with left and right in order and pushes its result, for any alignment of the stack |
| `Fragments.XorSwap` | src/codegen/x86/codegen.cpp:264-268 | the three exclusive ors exchange %xmm0 and %xmm1 |
| `Fragments.AlignRuns` | src/codegen/x86/codegen.cpp:499-505 | for every %rsp of whole words the stack is 16-byte aligned with no live word lost (section 3.2.2 of the System V AMD64 ABI) |
| `Fragments.AlignedCallRuns` | src/codegen/x86/codegen.cpp:447-477 | the call happens at a 16-byte aligned %rsp, and afterwards the stack and %rsp are back exactly, for any callee that keeps %rsp and %r12 |
| `Fragments.FinishCallRuns` | src/codegen/x86/codegen.cpp:447-477 | a call with its result pushed, whatever the alignment |
| `Fragments.PopArgRuns` | src/codegen/x86/codegen.cpp:416-445 | an argument leaves the stack for its register; a BOOLEAN arrives as 0 or 1 |
| `Fragments.MaterialiseRuns` | src/codegen/x86/codegen.cpp:568-578 | a condition becomes 0 or all ones through its two labels |
| `Fragments.IntRelRuns` | src/codegen/x86/codegen.cpp:543-579 | an INTEGER comparison pushes the truth word of the unsigned comparison |
| `Fragments.FloatRelRuns` | src/codegen/x86/codegen.cpp:543-579 | a DOUBLE comparison pushes the truth word of its jump condition and clears the x87 stack |
| `Fragments.NotRuns` | src/codegen/x86/codegen.cpp:129 | `notq` negates truth words |
| `Fragments.BranchRuns` | src/codegen/x86/codegen.cpp:331-339 | `test` and `jz` decide a truth word |
| `Fragments.LoadPointedRuns` | src/codegen/x86/codegen.cpp:95-99 | one dereference: the word at a mapped address, or a fault at the load if the address is null |
| `StmtSim.StmtRuns` | src/compiler.cpp:890-902 | forward simulation: for every accepted statement, frame and start state the code follows the outcome of the statement under any fuel, with equal globals at an end, a trap and a cut-off |
| `StmtSim.IfElseRuns` | src/codegen/x86/codegen.cpp:329-357 | the same through the jumps of IF with ELSE |
| `StmtSim.IfOnlyRuns` | src/codegen/x86/codegen.cpp:329-357 | the same through the jumps of IF without ELSE |
| `StmtSim.LoopRuns` | src/codegen/x86/codegen.cpp:359-380 | the same for WHILE, round by round |
| `StmtSim.ForRuns` | src/codegen/x86/codegen.cpp:382-412 | the same for FOR, whose bound is evaluated again before each round |
| `StmtSim.ForTestRuns` | src/codegen/x86/codegen.cpp:393-402 | the exit test branches exactly on the signed comparison of the bound with the variable |
| `StmtSim.SignedAgrees` | src/codegen/x86/codegen.cpp:399 | the signed and the unsigned exit test agree exactly when both words are on the same side of 2^63 |
| `StmtSim.LoadChainRuns` | src/compiler.cpp:764-768 | any number of dereferences reaches the address that as many source dereferences designate, or faults where the chain meets null |
| `StmtSim.StoreRuns` | src/compiler.cpp:735-785 | a chained assignment through k carets writes the value to the k-th target and changes no other global, for every k |
| `StmtSim.StoreRepresents` | src/codegen/x86/codegen.cpp:101-111 | writing a global at its address writes that global and no other |
| `StmtSim.DisplayRuns` | src/codegen/x86/codegen.cpp:479-497 | DISPLAY hands printf the format of the type and the value, and nets zero words |
| `StmtSim.CallStmtRuns` | src/compiler.cpp:92-105 | a call statement follows its source outcome, leak included |
| `Labels.ExprLabels` | src/codegen/x86/codegen.cpp:568-578 | every label of an expression is defined once, every jump target is defined, and its tags lie in (tag before, tag after] |
| `Labels.StmtLabels` | src/codegen/x86/codegen.cpp:329-412 | the same for every statement, so nested and sibling constructs never share a label |
| `Labels.MainLabels` | src/compiler.cpp:904-912 | in the whole main procedure each label is defined exactly once and every jump target is defined |
| `Departures.LiteralsSignExtend` | src/codegen/x86/codegen.cpp:71-85 | a literal keeps its value iff it is outside [2^31, 2^32); inside, its upper half becomes all ones |
| `Departures.RemainderIsQuotient` | src/codegen/x86/codegen.cpp:240-251 | INTEGER `%` gives the quotient, which is the remainder iff the dividend is a multiple of the divisor plus one with a quotient below the divisor |
| `Departures.AndIsLeft` | src/codegen/x86/codegen.cpp:113-119 | `&&` gives its left operand, which is the conjunction iff the left is false or the right is true |
| `Departures.DoubleToChar` | src/codegen/x86/codegen.cpp:297-303 | DOUBLE to CHAR emits nothing, which is right iff the bit pattern is the converted number |
| `Departures.NoWayBackFromChar` | src/codegen/x86/codegen.cpp:289-327 | an expression of type CHAR, a literal or variable included, converts to CHAR and to nothing else, although README.md:64 lists it |
| `Departures.IntegerToDoubleIsSigned` | src/codegen/x86/codegen.cpp:305-311 | INTEGER to DOUBLE converts the word minus 2^64 from 2^63 on |
| `Departures.LaterCallClobbers` | src/compiler.cpp:294-297 | for any argument list, what the callee reads for the i-th argument: its own word if no later argument writes its register, and else, except in %rdx, what the last call among the arguments left there |
| `Departures.LaterWriteClobbersRdx` | src/codegen/x86/codegen.cpp:185-251 | in %rdx it is what the last argument that calls out, multiplies or divides left |
| `Departures.RdxLeft` | src/codegen/x86/codegen.cpp:185-251 | that is the high word of an INTEGER product and the remainder of an INTEGER `/` or `%` |
| `Departures.ReadsAsMeant` | src/compiler.cpp:281-301 | the callee reads the words that are meant iff every overwritten argument register was left with the word it was loaded with |
| `Registers.KeepsPassed` | src/compiler.cpp:281-301 | so it does if no argument calls out behind a loaded register and none multiplies or divides behind a loaded %rdx |
| `Registers.ArgsLeft` | src/compiler.cpp:281-301 | a register loaded before some arguments holds what their last call left, or its word if there is none |
| `Registers.LastRdxLeaves` | src/codegen/x86/codegen.cpp:185-251 | and %rdx what the last argument that writes it left |
| `Departures.CallStatementsLeak` | src/compiler.cpp:99 | a call statement leaks exactly one word per non-VOID call |
| `Departures.OthersDoNotLeak` | src/compiler.cpp:890-902 | a statement without call statements leaks nothing in any run |
| `DataLayout.BackToBack` | src/codegen/x86/codegen.cpp:43-66 | the next global starts one byte behind a BOOLEAN or a CHAR and eight behind an INTEGER, a DOUBLE or a pointer |
| `DataLayout.LayoutRefines` | src/codegen/x86/codegen.cpp:43-69 | eight-byte accesses to globals laid out back to back refine a store of variables iff no variable but the last one emitted is BOOLEAN or CHAR |
| `DataLayout.EveryOrderRefines` | src/compiler.cpp:958-967 | for two or more variables this holds for every emission order iff none is BOOLEAN or CHAR |
| `DataLayout.SectionMeetsPremise` | src/codegen/x86/codegen.cpp:32-65 | a linked program with the section loaded zeroed meets every premise of the main theorem where the C runtime calls it iff no variable but the last one emitted is BOOLEAN or CHAR |
| `Memory.LoadOwnStore` | src/codegen/x86/codegen.cpp:101-111 | an eight-byte read gives what was last written at its address |
| `Memory.LoadOtherStore` | src/codegen/x86/codegen.cpp:101-111 | footprints eight bytes apart do not interfere |
| `Memory.LittleEndian` | src/codegen/x86/codegen.cpp:87-111 | a word is its eight bytes, the least significant one at the lowest address |
| `ForCounting.EvalAgrees` | src/compiler.cpp:845 | an expression without dereferences and calls only depends on the variables it reads and adds nothing to the trace |
| `ForCounting.SparedStays` | src/compiler.cpp:849-851 | no run of a statement changes the variables that its assignments, by name or by pointer type, cannot reach |
| `ForCounting.ForCounts` | src/codegen/x86/codegen.cpp:382-412 | for any body and bound under an invariant of the rounds that keeps the loop variable and the value hi of the bound, whatever they call or write through pointers: from v the loop is exactly max(0, hi-v+1) rounds, and the signed test follows iff all its comparisons stay on one side of 2^63 |
| `ForCounting.RoundValue` | src/codegen/x86/codegen.cpp:404-412 | under the same invariant the variable is v+j after j rounds |
| `ForCounting.ForStatementCounts` | src/compiler.cpp:833-854 | a whole FOR under such an invariant: that many rounds, and the variable ends at max(lo, hi+1) |
| `ForCounting.ForToTheTop` | src/codegen/x86/codegen.cpp:404-412 | a FOR up to the largest word never ends |
| `ForCounting.SteadyCounts` | src/codegen/x86/codegen.cpp:382-412 | a static condition for the invariant: a bound without dereferences and calls and a body whose stores cannot reach the loop variable or the bound by name or by pointer type; then the rounds are runs of the body alone |
| `ForCounting.SteadyStatementCounts` | src/compiler.cpp:833-854 | the same for a whole FOR, with the value the variable ends with |
| `StaticConditions.SparesExactly` | src/compiler.cpp:735-785 | the static condition on a body is that each of its stores, the increments of inner FORs included, neither names a variable in question nor goes through as many pointers as would lead to its type |
| `StaticConditions.ReadsExactly` | src/compiler.cpp:845 | the static condition on a bound is that nothing inside it is another variable, a dereference or a call |
| `RoundTrip.ExprComplete` | src/compiler.cpp:685-712 | an expression tree that fits the levels parses back from its printing, in front of any token that cannot continue it; Precedence lists the operators of each level |
| `RoundTrip.ExprSound` | src/compiler.cpp:331-419 | every accepted expression is the printing of a tree that fits, with left associativity, two precedence levels and at most one comparison |
| `Precedence.ChainParses` | src/compiler.cpp:331-419 | a chain of factors of any length parses to the tree that splits at the last of `+`, `-`, `\|\|`, or without any at the last of `*`, `/`, `%`, `&&`, and so on in both parts |
| `Precedence.TwoOperators` | src/compiler.cpp:331-419 | `a op1 b op2 c` is `a op1 (b op2 c)` for op1 in `+`, `-`, `\|\|` and op2 in `*`, `/`, `%`, `&&`, and `(a op1 b) op2 c` in every other case |
| `Precedence.ComparisonLoosest` | src/compiler.cpp:685-712 | either side of a comparison is a whole chain, and a second comparison is left unread |
| `RoundTrip.FactorSound` | src/compiler.cpp:204-224 | every accepted factor is a dereferencable with postfix carets |
| `RoundTrip.ArgListSound` | src/compiler.cpp:281-301 | every accepted argument list is the printing of fitting arguments |
| `RoundTrip.TypeComplete` | src/compiler.cpp:614-660 | a type expression parses back from its printing |
| `RoundTrip.TypeSound` | src/compiler.cpp:614-660 | every accepted type expression is the printing of one |
| `RoundTrip.StmtComplete` | src/compiler.cpp:788-902 | a statement tree that fits parses back from its printing; an ELSE goes to the nearest IF |
| `RoundTrip.StmtSound` | src/compiler.cpp:788-902 | every accepted statement is the printing of a tree that fits, which no ELSE behind it could extend |
| `RoundTrip.BlockComplete` | src/compiler.cpp:856-874 | blocks with and without a last semicolon parse back |
| `Parentheses.MinimalFits` | src/compiler.cpp:167-224 | any lexically sound tree fits the grammar after adding parentheses where needed |
| `Parentheses.MinimalErases` | src/compiler.cpp:171-178 | that changes nothing but parentheses |
| `Parentheses.LexicalExactly` | src/compiler.cpp:685-712 | the lexically sound trees are exactly those that some fitting tree is, up to parentheses |
| `Parentheses.FewestTokens` | src/compiler.cpp:685-712 | no text that parses to the same tree up to parentheses is shorter |
| `Parentheses.TreeRoundTrip` | src/compiler.cpp:685-712 | every lexically sound tree prints with minimal parentheses and parses back to itself up to them |
| `Parentheses.MinimalSame` | src/compiler.cpp:171-178 | parentheses change neither type nor code |
| `Parentheses.MinimalEvals` | src/compiler.cpp:171-178 | parentheses do not change the meaning |
| `Parentheses.MinimalStmtSame` | src/compiler.cpp:788-813 | neither do the blocks that keep an ELSE from the wrong IF |
| `Parentheses.EveryTreeHasAText` | src/compiler.cpp:890-902 | every lexically sound statement has a text that the parser reads back and that compiles to exactly its code |
| `TypeTable.Canonical` | src/compiler.cpp:926-950 | two identifiers are equal iff they stand for the same structure |
| `TypeTable.InternValid` | src/compiler.cpp:952-956 | interning keeps identifiers unique and consecutive; a fresh one is unused and above its target, so dereference chains are finite and "type id was already allocated" cannot be reached |
| `TypeTable.InternExprCorrect` | src/compiler.cpp:614-660 | interning a type expression gives an identifier of its structure after alias expansion and fails exactly on an unknown alias |
| `TypeTable.InterningCanonical` | src/usertype.cpp:19-35 | after any sequence of uses and TYPE declarations two type expressions have the same identifier iff they denote the same structure after alias expansion, each under the aliases declared before it |
| `TypeTable.DenExtends` | src/compiler.cpp:926-950 | later interning never changes what an identifier stands for |
| `FrontEnd.ScopeStable` | src/compiler.cpp:926-950 | interning leaves the tables, read as structures, as they were |
| `FrontEnd.DenKinds` | src/compiler.cpp:210-215 | an identifier is a user type exactly when its structure is a pointer |
| `FrontEnd.BadArgument` | src/compiler.cpp:286-297 | an argument too many, ill typed or without a register spoils every call that contains it |
| `FrontEnd.ArgsCodeSnoc` | src/compiler.cpp:281-301 | argument code grows to the right by one argument and its register |
| `OnePass.Compiler.ReadToken` | src/compiler.cpp:1059 | the next token |
| `OnePass.Compiler.TryReadToken` | src/compiler.cpp:1048-1057 | an expected token is skipped, any other is left |
| `OnePass.Compiler.CheckType` | src/compiler.cpp:1002-1030 | the documented contract: equality for concrete types, membership for the arithmetic concept as second operand, failure for a concept as first operand |
| `OnePass.Compiler.CreateType` | src/compiler.cpp:926-950 | the identifier of a pointer type is the interned one; the tables read as structures do not change |
| `OnePass.Compiler.ParseVariableReference` | src/compiler.cpp:142-165 | accepts exactly `@x` for a declared x, with type pointer to its type and the code of the tree |
| `OnePass.Compiler.ParseLiteral` | src/compiler.cpp:107-140 | a literal, its type and its code |
| `OnePass.Compiler.ParseVariableUsage` | src/compiler.cpp:316-329 | accepts exactly declared variables |
| `OnePass.Compiler.ParseTypeExpr` | src/compiler.cpp:614-660 | accepts exactly the type expressions that resolve, with the interned identifier of their structure |
| `OnePass.Compiler.ParseDereferencable` | src/compiler.cpp:167-202 | accepts exactly what parses to a primary tree that checks; its type and the code of the tree |
| `OnePass.Compiler.ParseFactorIdentifier` | src/compiler.cpp:76-90 | the same for variables and calls in expressions |
| `OnePass.Compiler.ParseTypeCast` | src/compiler.cpp:226-249 | the same for conversions, rejecting user-defined types on both sides |
| `OnePass.Compiler.ParseFactorMethod` | src/compiler.cpp:204-224 | the same for any number of carets |
| `OnePass.Compiler.EmitBinary` | src/compiler.cpp:342-373 | an operator is emitted exactly for the operand types it has |
| `OnePass.Compiler.JoinOperands` | src/compiler.cpp:339-373 | both operands and the operator check together exactly when the tree does |
| `OnePass.Compiler.ParseTermMethod` | src/compiler.cpp:331-377 | the same as the tree parser for chains of `*`, `/`, `%` and `&&`, to the left (Precedence.ChainParses) |
| `OnePass.Compiler.ParseSimpleExpression` | src/compiler.cpp:379-419 | the same for chains that also contain `+`, `-` and `\|\|` |
| `OnePass.Compiler.ParseExpression` | src/compiler.cpp:685-712 | success exactly when the tokens parse to an expression tree that checks; then the tokens behind it, the type of the tree and exactly its code |
| `OnePass.Compiler.ParseArgument` | src/compiler.cpp:292-297 | one argument against its declared parameter and the free registers |
| `OnePass.Compiler.ParseCallArguments` | src/compiler.cpp:281-307 | the argument loop accepts exactly the lists that the call takes |
| `OnePass.Compiler.ParseFunctionCallAfterIdentifier` | src/compiler.cpp:251-314 | accepts exactly the calls of declared, callable functions with matching arguments, with the code of the call |
| `OnePass.Compiler.ParseAssignmentStatementAfterIdentifier` | src/compiler.cpp:724-786 | accepts exactly the assignments that check, with their code; the type is the variable's without carets and VOID with carets |
| `OnePass.Compiler.ParseCarets` | src/compiler.cpp:735-755 | carets are accepted exactly as deep as the type goes, and the last type is the one they lead to |
| `OnePass.Compiler.EmitPointerStore` | src/compiler.cpp:762-770 | the variable, all but the last dereference, and one store |
| `OnePass.Compiler.ParsePointerAssignment` | src/compiler.cpp:735-775 | accepts exactly the chained assignments that check, value first |
| `OnePass.Compiler.ParseStatementIdentifier` | src/compiler.cpp:92-105 | call statements and assignments |
| `OnePass.Compiler.ParseIfStatement` | src/compiler.cpp:788-813 | accepts exactly the IF trees that check, with their code and label counter |
| `OnePass.Compiler.ParseIfBranches` | src/compiler.cpp:800-812 | the branches of an IF; an ELSE belongs to the nearest IF |
| `OnePass.Compiler.ParseWhileStatement` | src/compiler.cpp:815-831 | the same for WHILE, whose label is drawn before its condition |
| `OnePass.Compiler.ParseForStatement` | src/compiler.cpp:833-854 | the same for FOR, whose label is drawn after its assignment and which rejects carets and variables that are not INTEGER |
| `OnePass.Compiler.ParseForRounds` | src/compiler.cpp:843-853 | the bound and the body of a FOR |
| `OnePass.Compiler.ParseBlockStatement` | src/compiler.cpp:856-874 | the same for blocks, with an optional last semicolon |
| `OnePass.Compiler.ParseDisplayStatement` | src/compiler.cpp:876-888 | the same for DISPLAY, rejecting user-defined types |
| `OnePass.Compiler.ParseStatement` | src/compiler.cpp:890-902 | success exactly when the tokens parse to a statement tree that checks; then the tokens behind it and exactly its code |
| `OnePass.Compiler.ParseMainBlockStatement` | src/compiler.cpp:904-912 | the main block with its final dot, and the code of the main procedure |
| `OnePass.Compiler.DeclareAllNames` | src/compiler.cpp:454-463 | succeeds iff no name is declared already and no two are the same; then exactly these names are entered, all with the type |
| `OnePass.Compiler.ParseVariableDeclarationBlock` | src/compiler.cpp:436-480 | a VAR block declares exactly what its groups do, going on while an identifier follows; DeclaredTables.VarEnters says which entries that are |
| `OnePass.Compiler.ParseTypeDefinition` | src/compiler.cpp:662-683 | a TYPE declaration adds exactly its alias |
| `OnePass.Compiler.ParseAliasedType` | src/compiler.cpp:672-682 | the aliased type and its semicolon; fails exactly if the type does not resolve, the semicolon is missing or the alias is taken |
| `OnePass.Compiler.ParseForeignParameters` | src/compiler.cpp:495-507 | only builtin type names become parameters; an empty slot between commas is skipped, and any other token fails at the closing parenthesis |
| `OnePass.Compiler.ParseReturnType` | src/compiler.cpp:614-660 | VOID gives no result; any other return type is exactly the type that the tokens resolve to |
| `OnePass.Compiler.ParseForeignFunctionDeclaration` | src/compiler.cpp:482-522 | an FFI declaration adds exactly its signature; DeclaredTables.VoidEnters and FunctionEnters say which that is |
| `OnePass.Compiler.ParseInclude` | src/compiler.cpp:524-612 | an INCLUDE declares what its file does on the first sight of its path and nothing later; the outer tokens and file name come back |
| `OnePass.Compiler.ReadFile` | src/compiler.cpp:578-611 | a file must be a declaration block up to its end; the outer tokens and file name are restored on failure too |
| `OnePass.Compiler.ParseDeclarationBlock` | src/compiler.cpp:421-434 | the tables after a declaration block are exactly those of its parsed declarations, on every token sequence and every finite file map; with the methods it calls it ends even for files that include themselves or each other |
| `DeclaredTables.VarEnters` | src/compiler.cpp:436-480 | a VAR block is accepted iff every type resolves, no name is declared already and no two are the same; the tables then hold what they held and each name with the type of its own group, and nothing else |
| `DeclaredTables.NoSecondVariable` | src/compiler.cpp:454-463 | a name declared twice, in one block or in two, is rejected |
| `DeclaredTables.TypeEnters` | src/compiler.cpp:662-683 | a TYPE declaration is accepted iff its type resolves and its name is no alias yet; one alias is added and nothing else changes |
| `DeclaredTables.VoidEnters` | src/compiler.cpp:482-522 | a foreign function with VOID is accepted iff no function has its name; it is entered without a result and with the written parameter types in order |
| `DeclaredTables.FunctionEnters` | src/compiler.cpp:482-522 | with a type instead it must also resolve, and is exactly the result entered |
| `DeclaredTables.VoidHasNoValue` | src/compiler.cpp:263-266 | so no call of a function declared VOID is an expression |
| `DeclaredTables.IncludeEnters` | src/compiler.cpp:524-612 | a repeated path changes nothing; a new one declares what its file does, which must exist and be a declaration block up to its end |
| `OnePass.Compiler.Compile` | src/compiler.cpp:48-74 | nothing may follow the final dot; the instructions are those of the main procedure of the parsed program |
| `Splicing.DeclComplete` | src/compiler.cpp:421-434 | a fitting declaration parses back from its printing |
| `Splicing.DeclSound` | src/compiler.cpp:421-434 | every accepted declaration is the printing of a fitting one |
| `Splicing.DeclsComplete` | src/compiler.cpp:421-434 | the same for whole declaration blocks |
| `Splicing.DeclsSound` | src/compiler.cpp:421-434 | and conversely |
| `Splicing.SpliceFlattens` | src/compiler.cpp:524-612 | splicing tokens is flattening parsed declarations, nested and repeated files included |
| `Splicing.DeclareFlattens` | src/compiler.cpp:524-612 | declaring through INCLUDE is declaring the flattened list |
| `Splicing.IncludeSplicing` | src/compiler.cpp:524-612 | a declaration block with INCLUDE gives exactly the tables and the rest of the one token sequence in which each first-seen path is replaced by the tokens of its file and repeats by nothing, unless the last declaration spliced in is a VAR and an identifier follows |
| `Splicing.SplicingCondition` | src/compiler.cpp:467-478 | an accepted block splices exactly iff no identifier follows it or the last declaration spliced in is no VAR |
| `Splicing.SplicingNeedsItsPremise` | src/compiler.cpp:467-478 | the smallest such block: a file whose last VAR takes in an identifier behind the INCLUDE, so the spliced sequence declares more |
| `CodeGenerator.CodeGen.LoadI64` | src/codegen/x86/codegen.cpp:71-85 | a literal goes through %rax exactly when it has more than 32 bits |
| `CodeGenerator.CodeGen.AluLoadBinop` | src/codegen/x86/codegen.cpp:509-535 | operands are loaded exactly for INTEGER, BOOLEAN and DOUBLE |
| `CodeGenerator.CodeGen.AluAdd` | src/codegen/x86/codegen.cpp:131-156 | the addition of INTEGER and DOUBLE, and failure on any other type |
| `CodeGenerator.CodeGen.AluSub` | src/codegen/x86/codegen.cpp:158-183 | the same for subtraction |
| `CodeGenerator.CodeGen.AluMultiply` | src/codegen/x86/codegen.cpp:185-210 | the same for multiplication |
| `CodeGenerator.CodeGen.AluDivide` | src/codegen/x86/codegen.cpp:212-238 | the same for division |
| `CodeGenerator.CodeGen.AluModulus` | src/codegen/x86/codegen.cpp:240-280 | the same for `%`, through a call of fmod for DOUBLE |
| `CodeGenerator.CodeGen.AluCompare` | src/codegen/x86/codegen.cpp:543-579 | comparisons of INTEGER and DOUBLE with one fresh tag, and failure on any other type |
| `CodeGenerator.CodeGen.Convert` | src/codegen/x86/codegen.cpp:289-327 | succeeds exactly for the convertible pairs, with the sequence of the pair |
| `CodeGenerator.CodeGen.FunctionCallRegister` | src/codegen/x86/codegen.cpp:592-628 | after 0 to 5 regular arguments %rdi, %rsi, %rdx, %rcx, %r8, %r9, after 0 to 7 DOUBLEs %xmm0 to %xmm7, and failure for more or for any other type |
| `CodeGenerator.CodeGen.FunctionCallParam` | src/codegen/x86/codegen.cpp:416-445 | an argument into the next register of its kind, counting it |
| `CodeGenerator.CodeGen.FunctionCallFinalize` | src/codegen/x86/codegen.cpp:447-477 | an aligned call whose result is pushed; fails exactly for a BOOLEAN or pointer result |
| `CodeGenerator.CodeGen.DebugDisplay` | src/codegen/x86/codegen.cpp:479-497 | the sequence of DISPLAY, exactly for builtin types |
| `CodeGenerator.CodeGen.StatementIfPrepare` | src/codegen/x86/codegen.cpp:329 | an IF saves a fresh tag |
| `CodeGenerator.CodeGen.StatementWhilePrepare` | src/codegen/x86/codegen.cpp:359-363 | a WHILE saves a fresh tag and opens with its label |
| `CodeGenerator.CodeGen.StatementForPrepare` | src/codegen/x86/codegen.cpp:382-386 | a FOR saves a fresh tag and its variable |

## Left out

- Tokenising: programs are token sequences with the values of literals attached; the two spellings of "different" are one token. Literals that overflow and character literals outside ASCII are excluded with it.
- Diagnostics: an error or an internal "compiler bug" is a failure result; positions, notes and messages are not modelled.
- The text of the assembly, symbol mangling, the order in which a hash map lists the globals (every order is covered) and the `.data` directives other than widths and order.
- Opening and looking up files: includes are a finite map from path to tokens. Command line, standard streams and the assembler are not part of this model.
- The size of the stack and of memory: %rsp is an unbounded number, so running out of stack, by deep expressions or by leaked call results, is not a fault of the model.
- Overflow of type identifiers and of the label counter.
- DOUBLE arithmetic: operations are uninterpreted functions on 64-bit patterns, so x87 extended precision, rounding and the exchange of operands in commutative operations are not visible; `fsubp` and `fdivp` are taken as the assembler reads them in AT&T syntax.
- C functions and printf: an oracle that gives every caller-saved register any word as a function of the calls so far, keeps %rbx, %rbp, %rsp and %r12, leaves the globals alone and adds an event to the trace.
- The other callee-saved obligations of the main procedure: %rbp returns with the entry %rsp in it, so it is preserved iff the two were equal; that %rbx and %r12 are not restored for the caller is not stated.
- ExprSim.ConvAgrees: for INTEGER to DOUBLE only one direction, because the conversion of numbers is uninterpreted and might by chance agree on the two readings of a word.
- Semantics.KeepsArgs: the flag of a call asks for this static condition, which is sufficient and not necessary; ExprSim.CallRuns and Departures.ReadsAsMeant say what is passed without it.
- SoundFragment.ExecClean: a FOR with a bound that is no literal, a conversion of a computed INTEGER to DOUBLE and any conversion of DOUBLE to INTEGER are outside the static fragment, because their conditions are on values; ForCounting.ForStatementCounts and ExprSim.ConvAgrees cover them.
- OnePass.Compiler.ParseDeclarationBlock: compares tables with type identifiers read as structures; the identifiers themselves are determined by CreateType and TypeTable.Canonical.
- User functions, records, arrays, CASE and DOWNTO: not implemented by the compiler.
