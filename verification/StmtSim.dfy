/** Statement correctness: forward simulation through the jumps of IF, WHILE and FOR. */
module StmtSim {
  import opened Words
  import opened Memory
  import opened Syntax
  import opened Typing
  import opened Machine
  import opened Emission
  import opened Semantics
  import opened Soundness
  import opened Registers
  import opened Simulation
  import opened Steps
  import opened Fragments
  import opened ExprSim

  /** What the stack held when the main procedure started, where, and the registers that the
      body never writes. */
  datatype Frame = Frame(base: Stack, rsp: int, rbp: int, fpu: Stack)

  function Over(leaks: Stack, base: Stack): Stack {
    if leaks.Empty? then base else Cons(leaks.top, Over(leaks.below, base))
  }

  /** The machine state between statements represents the source state: same globals, same
      trace, and on the stack nothing but the leaked call results over the base. */
  ghost predicate Rep(P: seq<Instr>, c: Scope, o: Env, s: SourceState, m: State, fr: Frame) {
    && Start(P, c, o, s.st, m) && m.trace == s.tr
    && m.stk == Over(s.leaks, fr.base) && m.rsp == fr.rsp - 8 * Depth(s.leaks)
    && m.rbp == fr.rbp && m.fpu == fr.fpu
  }

  /** The fault of a trap, with the globals and the trace of the source state it happened in. */
  ghost predicate Traps(P: seq<Instr>, c: Scope, o: Env, s: SourceState, m: State, k: TrapKind) {
    FaultsAt(P, m, k) && m.trace == s.tr && Represents(c, o, s.st, m.mem)
  }

  /** The run of the machine from `m` says what the source outcome says. A trap is its
      fault, and running out of fuel means that many machine steps without stopping, both with the
      same globals and trace. */
  ghost predicate Follows(P: seq<Instr>, c: Scope, o: Env, m: State, n: nat, goal: int, fuel: nat, fr: Frame,
                          r: Outcome)
  {
    var m' := Run(P, o, m, n);
    match r
    case Done(s, ok) => ok ==> m'.pc == goal && Rep(P, c, o, s, m', fr)
    case Trapped(k, s, ok) => ok ==> Traps(P, c, o, s, m', k)
    case OutOfFuel(s, ok) => ok ==> n >= fuel && Rep(P, c, o, s, m', fr)
    case Stray => true
  }

  lemma Chain(P: seq<Instr>, c: Scope, o: Env, m: State, n1: nat, n2: nat, goal: int, fuel1: nat, fuel: nat,
              fr: Frame, r: Outcome, flag: bool)
    requires Follows(P, c, o, Run(P, o, m, n1), n2, goal, fuel1, fr, r) && fuel <= n1 + fuel1
    ensures Follows(P, c, o, m, n1 + n2, goal, fuel, fr, Flagged(r, flag))
  {
    hide Step, Run, Rep;
    RunPlus(P, o, m, n1, n2);
  }

  /** Only the program counter, %rax, %rbx, flags and so on differ. */
  lemma RepMoves(P: seq<Instr>, c: Scope, o: Env, s: SourceState, m: State, m': State, fr: Frame)
    requires Rep(P, c, o, s, m, fr)
    requires m'.status == Running && m'.stk == m.stk && m'.rsp == m.rsp && m'.rbp == m.rbp
    requires m'.fpu == m.fpu && m'.mem == m.mem && m'.trace == m.trace
    ensures Rep(P, c, o, s, m', fr)
  {
    hide Start;
    StartAfter(P, c, o, s.st, m, m');
  }

  /** Writing a global through its address writes that global and no other. */
  lemma StoreRepresents(c: Scope, o: Env, st: Globals, mem: Mem, y: Name, v: Value)
    requires Linked(c, o) && Represents(c, o, st, mem) && y in c.vars
    ensures Mapped(mem, o.addr[y]) && Represents(c, o, st[y := v], Store(mem, o.addr[y], Enc(o, v)))
  {
    var mem' := Store(mem, o.addr[y], Enc(o, v));
    LoadOwnStore(mem, o.addr[y], Enc(o, v));
    forall x | x in c.vars && x != y
      ensures Mapped(mem', o.addr[x]) && Load(mem', o.addr[x]) == Load(mem, o.addr[x])
    {
      assert Apart(o.addr[y], o.addr[x]);
      LoadOtherStore(mem, o.addr[y], Enc(o, v), o.addr[x]);
    }
  }

  /** The state after an expression has been pushed over a represented state. */
  ghost predicate Pushed(P: seq<Instr>, c: Scope, o: Env, s: SourceState, v: Value, m: State, fr: Frame) {
    && Start(P, c, o, s.st, m) && m.trace == s.tr
    && m.stk == Cons(Enc(o, v), Over(s.leaks, fr.base)) && m.rsp == fr.rsp - 8 * Depth(s.leaks) - 8
    && m.rbp == fr.rbp && m.fpu == fr.fpu
  }

  /** Evaluating an expression in a represented state. */
  lemma {:induction false} ExprPushes(P: seq<Instr>, c: Scope, o: Env, e: Expr, tag: nat, s: SourceState, m: State,
                                      fr: Frame) returns (n: nat)
    requires Rep(P, c, o, s, m, fr) && CheckExpr(c, e).Some? && CodeAt(P, m.pc, ExprCode(c, e, tag).code)
    ensures Sound(c, Eval(c, o, e, s.st, s.tr), CheckExpr(c, e).value)
    ensures match Eval(c, o, e, s.st, s.tr)
      case Trap(k, tr, ok) => ok ==> Faults(P, o, m, n, k, tr)
      case Wrong => true
      case Val(v, tr, ok) => ok ==>
        Run(P, o, m, n).pc == m.pc + |ExprCode(c, e, tag).code| && Pushed(P, c, o, s.(tr := tr), v, Run(P, o, m, n), fr)
  {
    hide Step, Run, Start, ExprCode, Eval, CallsOut, UsesRdx;
    StartSound(P, c, o, s.st, m, e, s.tr);
    n := ExprRuns(P, c, o, e, tag, s.st, m);
    var r := Eval(c, o, e, s.st, s.tr);
    if r.Val? && r.ok {
      StartAfter(P, c, o, s.st, m, Run(P, o, m, n));
    }
  }

  /** A write of `v` to the global `y` with the rest of the state as in `m`. */
  lemma RepStored(P: seq<Instr>, c: Scope, o: Env, s: SourceState, m: State, m': State, y: Name, v: Value, fr: Frame)
    requires Start(P, c, o, s.st, m) && m.trace == s.tr && y in c.vars && HasType(c, v, c.vars[y])
    requires m.rbp == fr.rbp && m.fpu == fr.fpu
    requires m'.status == Running && m'.stk == Over(s.leaks, fr.base) && m'.rsp == fr.rsp - 8 * Depth(s.leaks)
    requires m'.rbp == m.rbp && m'.fpu == m.fpu && m'.trace == m.trace && (m'.rsp - m.rsp) % 8 == 0
    requires m'.mem == Store(m.mem, o.addr[y], Enc(o, v))
    ensures Rep(P, c, o, s.(st := s.st[y := v]), m', fr)
  {
    StoreRepresents(c, o, s.st, m.mem, y, v);
    assert m'.rsp == m.rsp + 8 * ((m'.rsp - m.rsp) / 8);
  }

  lemma PopVarRuns(P: seq<Instr>, c: Scope, o: Env, x: Name, v: Value, s: SourceState, m: State, fr: Frame)
    requires Pushed(P, c, o, s, v, m, fr) && CodeAt(P, m.pc, [PopVar(x)])
    requires x in c.vars && HasType(c, v, c.vars[x])
    ensures Run(P, o, m, 1).pc == m.pc + 1 && Rep(P, c, o, s.(st := s.st[x := v]), Run(P, o, m, 1), fr)
  {
    hide Step, Run;
    assert P[m.pc] == [PopVar(x)][0];
    DoPopVar(P, o, m, x);
    Run1(P, o, m);
    RepStored(P, c, o, s, m, Run(P, o, m, 1), x, v, fr);
  }

  /** `r` further dereferences of a pointer that `j` dereferences of `x` led to. */
  lemma {:induction false} LoadChainRuns(P: seq<Instr>, c: Scope, o: Env, st: Globals, x: Name, j: nat, r: nat,
                                         m: State, rest: Stack) returns (n: nat)
    requires Start(P, c, o, st, m) && CodeAt(P, m.pc, LoadChain(r)) && j > 0
    requires x in c.vars && Strip(c.vars[x], j + r).Some?
    requires Follow(st, x, j).Some? && m.stk == Cons(Enc(o, VPtr(Follow(st, x, j).value)), rest)
    ensures Follow(st, x, j + r).Some?
    ensures Reaches(P, o, m, n, |LoadChain(r)|, Cons(Enc(o, VPtr(Follow(st, x, j + r).value)), rest),
                    m.rsp, m.trace, false, false)
         || (Follow(st, x, j + r).value.None? && Faults(P, o, m, n, NullDereference, m.trace))
    decreases r
  {
    hide Step, Start;
    StripPrefix(c.vars[x], j, r);
    StartFollow(P, c, o, st, m, x, j);
    StartFollow(P, c, o, st, m, x, j + r);
    StartRunning(P, c, o, st, m);
    if r == 0 {
      n := 0;
    } else {
      CodeSplit(P, m.pc, LOAD_POINTED, LoadChain(r - 1));
      var y := Follow(st, x, j).value;
      LoadPointedRuns(P, o, m, Enc(o, VPtr(y)), rest);
      StartPointer(P, c, o, st, m, y, x, j);
      if y.None? {
        FollowNull(st, x, j, r);
        n := 2;
      } else {
        StripPrefix(c.vars[x], j + 1, r - 1);
        StartFollow(P, c, o, st, m, x, j + 1);
        var m1 := Run(P, o, m, 2);
        StartAfter(P, c, o, st, m, m1);
        var k := LoadChainRuns(P, c, o, st, x, j + 1, r - 1, m1, rest);
        RunPlus(P, o, m, 2, k);
        n := 2 + k;
      }
    }
  }

  lemma StartFollow(P: seq<Instr>, c: Scope, o: Env, st: Globals, m: State, x: Name, k: nat)
    requires Start(P, c, o, st, m) && x in c.vars && Strip(c.vars[x], k).Some?
    ensures Follow(st, x, k).Some?
    ensures Follow(st, x, k).value.Some? ==>
              var y := Follow(st, x, k).value.value;
              y in c.vars && Some(c.vars[y]) == Strip(c.vars[x], k)
  {
    FollowSound(c, st, x, k);
  }

  /** Null is unmapped, and an address loads the value of its global. */
  lemma StartPointer(P: seq<Instr>, c: Scope, o: Env, st: Globals, m: State, y: Option<Name>, x: Name, j: nat)
    requires Start(P, c, o, st, m) && Follow(st, x, j) == Some(y)
    ensures y.None? ==> !Mapped(m.mem, Enc(o, VPtr(y)))
    ensures y.Some? && y.value in c.vars ==>
              && Mapped(m.mem, Enc(o, VPtr(y)))
              && Load(m.mem, Enc(o, VPtr(y))) == Enc(o, st[y.value])
              && (Follow(st, x, j + 1).Some? ==> st[y.value] == VPtr(Follow(st, x, j + 1).value))
  {
    hide Mapped, Load;
  }

  lemma {:induction false} FollowNull(st: Globals, x: Name, j: nat, r: nat)
    requires Follow(st, x, j) == Some(None)
    ensures Follow(st, x, j + r) == Some(None)
  {
    if r > 0 {
      FollowNull(st, x, j, r - 1);
    }
  }

  lemma {:induction false} StripPrefix(t: Ty, j: nat, r: nat)
    requires Strip(t, j + r).Some?
    ensures Strip(t, j).Some?
  {
    if r > 0 {
      StripLast(t, j + r);
      StripPrefix(t, j, r - 1);
    }
  }

  /** The store through a pointer: the pointer is on top, the value below it. */
  lemma StorePointedRuns(P: seq<Instr>, o: Env, m: State, p: Word, w: Word, rest: Stack)
    requires CodeAt(P, m.pc, STORE_POINTED) && m.status == Running && m.stk == Cons(p, Cons(w, rest))
    ensures Mapped(m.mem, p) ==>
              var m3 := Run(P, o, m, 3);
              m3 == m.(pc := m.pc + 3, stk := rest, rsp := m.rsp + 16, regs := m3.regs, mem := Store(m.mem, p, w))
    ensures p == 0 && !Mapped(m.mem, 0) ==> Faults(P, o, m, 3, NullDereference, m.trace)
  {
    hide Step, Run, Store, Mapped;
    var code := STORE_POINTED;
    assert P[m.pc] == code[0] && P[m.pc + 1] == code[1] && P[m.pc + 2] == code[2];
    var m1 := Step(P, o, m);
    var m2 := Step(P, o, m1);
    DoPopReg(P, o, m, RAX);
    DoPopReg(P, o, m1, RBX);
    DoMovInd(P, o, m2);
    Run3(P, o, m);
  }

  lemma StartTarget(P: seq<Instr>, c: Scope, o: Env, st: Globals, m: State, y: Name)
    requires Start(P, c, o, st, m) && y in c.vars
    ensures y in o.addr && Mapped(m.mem, o.addr[y]) && Enc(o, VPtr(Some(y))) == o.addr[y] && !Mapped(m.mem, 0)
    ensures y in st
  {}

  /** The last step of a chained assignment, at the end of the chain. */
  lemma StoreThrough(P: seq<Instr>, c: Scope, o: Env, y: Option<Name>, v: Value, s: SourceState, m0: State, m: State,
                     fr: Frame)
    requires Pushed(P, c, o, s, v, m0, fr) && CodeAt(P, m.pc, STORE_POINTED)
    requires m.status == Running && m.stk == Cons(Enc(o, VPtr(y)), m0.stk) && m.rsp == m0.rsp - 8
    requires m.rbp == m0.rbp && m.fpu == m0.fpu && m.mem == m0.mem && m.trace == m0.trace
    requires y.Some? ==> y.value in c.vars && HasType(c, v, c.vars[y.value])
    ensures y.None? ==> Faults(P, o, m, 3, NullDereference, s.tr)
    ensures y.Some? ==> y.value in s.st && Run(P, o, m, 3).pc == m.pc + 3
                        && Rep(P, c, o, s.(st := s.st[y.value := v]), Run(P, o, m, 3), fr)
  {
    hide Step, Start, Mapped;
    var rest := Over(s.leaks, fr.base);
    StorePointedRuns(P, o, m, Enc(o, VPtr(y)), Enc(o, v), rest);
    StartRunning(P, c, o, s.st, m0);
    match y
    case None => StartTargetNull(P, c, o, s.st, m0);
    case Some(z) =>
      StartTarget(P, c, o, s.st, m0, z);
      RepStored(P, c, o, s, m0, Run(P, o, m, 3), z, v, fr);
  }

  lemma StartTargetNull(P: seq<Instr>, c: Scope, o: Env, st: Globals, m: State)
    requires Start(P, c, o, st, m)
    ensures !Mapped(m.mem, 0)
  {}

  lemma PushVarRuns(P: seq<Instr>, c: Scope, o: Env, x: Name, st: Globals, m: State) returns (n: nat)
    requires Start(P, c, o, st, m) && x in c.vars && CodeAt(P, m.pc, [PushVar(x)])
    ensures Reaches(P, o, m, n, 1, Cons(Enc(o, st[x]), m.stk), m.rsp - 8, m.trace, false, false)
  {
    n := VarRuns(P, c, o, x, st, m);
  }

  /** `p^...^ := e` with any number of carets: after `e`, load `p`, then all but one of the
      dereferences, then one store. It writes the target of the chain and nothing else, or
      faults where the chain meets null. */
  lemma StoreRuns(P: seq<Instr>, c: Scope, o: Env, x: Name, k: nat, v: Value, s: SourceState, m: State, fr: Frame)
    returns (n: nat)
    requires Pushed(P, c, o, s, v, m, fr) && CodeAt(P, m.pc, StoreCode(x, k))
    requires x in c.vars && Strip(c.vars[x], k).Some? && HasType(c, v, Strip(c.vars[x], k).value)
    ensures Follows(P, c, o, m, n, m.pc + |StoreCode(x, k)|, 0, fr, AssignTo(s, x, k, v, s.tr, true))
  {
    hide Step, Run, Start, Rep;
    StartFollow(P, c, o, s.st, m, x, k);
    if k == 0 {
      PopVarRuns(P, c, o, x, v, s, m, fr);
      n := 1;
      StartTarget(P, c, o, s.st, m, x);
    } else {
      n := StoreChainRuns(P, c, o, x, k, v, s, m, fr);
    }
  }

  lemma FirstPointer(P: seq<Instr>, c: Scope, o: Env, x: Name, k: nat, st: Globals, m: State)
    requires Start(P, c, o, st, m) && x in c.vars && k > 0 && Strip(c.vars[x], k).Some?
    ensures Follow(st, x, 1).Some? && st[x] == VPtr(Follow(st, x, 1).value)
  {
    StripPrefix(c.vars[x], 1, k - 1);
    FollowSound(c, st, x, 1);
    assert HasType(c, st[x], c.vars[x]);
    assert Follow(st, x, 0) == Some(Some(x));
  }

  lemma StoreChainRuns(P: seq<Instr>, c: Scope, o: Env, x: Name, k: nat, v: Value, s: SourceState, m: State, fr: Frame)
    returns (n: nat)
    requires Pushed(P, c, o, s, v, m, fr) && CodeAt(P, m.pc, StoreCode(x, k)) && k > 0
    requires x in c.vars && Strip(c.vars[x], k).Some? && HasType(c, v, Strip(c.vars[x], k).value)
    ensures Follows(P, c, o, m, n, m.pc + |StoreCode(x, k)|, 0, fr, AssignTo(s, x, k, v, s.tr, true))
  {
    hide Step, Run, Start, Rep, Follow, Strip, HasType, Represents, LoadChain, StoreCode;
    StoreShape(x, k);
    CodeSplit(P, m.pc, [PushVar(x)] + LoadChain(k - 1), STORE_POINTED);
    CodeSplit(P, m.pc, [PushVar(x)], LoadChain(k - 1));
    FirstPointer(P, c, o, x, k, s.st, m);
    var k1 := PushVarRuns(P, c, o, x, s.st, m);
    var m1 := Run(P, o, m, k1);
    StartAfter(P, c, o, s.st, m, m1);
    var k2 := LoadChainRuns(P, c, o, s.st, x, 1, k - 1, m1, m.stk);
    RunPlus(P, o, m, k1, k2);
    n := k1 + k2;
    StartFollow(P, c, o, s.st, m, x, k);
    if Faults(P, o, m1, k2, NullDereference, s.tr) && Follow(s.st, x, k).value.None? {
      NullStore(P, c, o, x, k, v, s, m, n, m.pc + |StoreCode(x, k)|, fr);
    } else {
      var m2 := Run(P, o, m1, k2);
      StoreThrough(P, c, o, Follow(s.st, x, k).value, v, s, m, m2, fr);
      RunPlus(P, o, m, n, 3);
      n := n + 3;
      if Follow(s.st, x, k).value.None? {
        NullStore(P, c, o, x, k, v, s, m, n, m.pc + |StoreCode(x, k)|, fr);
      } else {
        TargetStore(P, c, o, x, k, v, s, m, n, m.pc + |StoreCode(x, k)|, fr);
      }
    }
  }

  lemma StoreShape(x: Name, k: nat)
    requires k > 0
    ensures StoreCode(x, k) == [PushVar(x)] + LoadChain(k - 1) + STORE_POINTED
  {}

  /** A chain that meets null. */
  lemma NullStore(P: seq<Instr>, c: Scope, o: Env, x: Name, k: nat, v: Value, s: SourceState, m: State, n: nat,
                  goal: int, fr: Frame)
    requires Start(P, c, o, s.st, m) && Follow(s.st, x, k) == Some(None) && Faults(P, o, m, n, NullDereference, s.tr)
    ensures Follows(P, c, o, m, n, goal, 0, fr, AssignTo(s, x, k, v, s.tr, true))
  {
    hide Step, Run, Rep, Follow, Linked, UniqueLabels, WellTyped;
    assert s.(tr := s.tr) == s;
  }

  /** A chain that reaches a global. */
  lemma TargetStore(P: seq<Instr>, c: Scope, o: Env, x: Name, k: nat, v: Value, s: SourceState, m: State, n: nat,
                    goal: int, fr: Frame)
    requires Follow(s.st, x, k).Some? && Follow(s.st, x, k).value.Some? && Follow(s.st, x, k).value.value in s.st
    requires Run(P, o, m, n).pc == goal
    requires Rep(P, c, o, s.(st := s.st[Follow(s.st, x, k).value.value := v]), Run(P, o, m, n), fr)
    ensures Follows(P, c, o, m, n, goal, 0, fr, AssignTo(s, x, k, v, s.tr, true))
  {
    hide Step, Run, Rep, Follow;
  }

  /** Assignment, also as the first part of a FOR. */
  lemma AssignRuns(P: seq<Instr>, c: Scope, o: Env, x: Name, k: nat, e: Expr, tag: nat, s: SourceState, m: State,
                   fr: Frame)
    returns (n: nat)
    requires Rep(P, c, o, s, m, fr) && CheckAssign(c, x, k, e)
    requires CodeAt(P, m.pc, ExprCode(c, e, tag).code + StoreCode(x, k))
    ensures Follows(P, c, o, m, n, m.pc + |ExprCode(c, e, tag).code| + |StoreCode(x, k)|, 0, fr,
                    ExecAssign(c, o, x, k, e, s))
  {
    hide Step, Run, Start, Rep, ExprCode, StoreCode, Eval, Pushed, CodeAt, CheckExpr, Strip, HasType, Follow;
    CodeSplit(P, m.pc, ExprCode(c, e, tag).code, StoreCode(x, k));
    n := ExprPushes(P, c, o, e, tag, s, m, fr);
    RepTrace(P, c, o, s, m, fr);
    var r := Eval(c, o, e, s.st, s.tr);
    if r.Val? && r.ok {
      var j := StoreRuns(P, c, o, x, k, r.v, s.(tr := r.tr), Run(P, o, m, n), fr);
      Chain(P, c, o, m, n, j, m.pc + |ExprCode(c, e, tag).code| + |StoreCode(x, k)|, 0, 0, fr,
            AssignTo(s.(tr := r.tr), x, k, r.v, r.tr, true), true);
      AssignAfter(s, x, k, r.v, r.tr);
      FlagTrue(AssignTo(s, x, k, r.v, r.tr, true));
      n := n + j;
    }
  }

  lemma AssignAfter(s: SourceState, x: Name, k: nat, v: Value, tr: Trace)
    ensures AssignTo(s.(tr := tr), x, k, v, tr, true) == AssignTo(s, x, k, v, tr, true)
  {}

  lemma RepTrace(P: seq<Instr>, c: Scope, o: Env, s: SourceState, m: State, fr: Frame)
    requires Rep(P, c, o, s, m, fr)
    ensures Start(P, c, o, s.st, m) && m.trace == s.tr && m.status == Running
  {
    StartRunning(P, c, o, s.st, m);
  }

  lemma SkipLabel(P: seq<Instr>, c: Scope, o: Env, s: SourceState, m: State, l: Label, fr: Frame)
    requires Rep(P, c, o, s, m, fr) && 0 <= m.pc < |P| && P[m.pc] == Def(l)
    ensures Run(P, o, m, 1).pc == m.pc + 1 && Run(P, o, m, 1).mem == m.mem && Rep(P, c, o, s, Run(P, o, m, 1), fr)
  {
    hide Step, Run, Start;
    RepTrace(P, c, o, s, m, fr);
    DoDef(P, o, m, l);
    Run1(P, o, m);
    RepMoves(P, c, o, s, m, Run(P, o, m, 1), fr);
  }

  lemma FollowJump(P: seq<Instr>, c: Scope, o: Env, s: SourceState, m: State, l: Label, to: nat, fr: Frame)
    requires Rep(P, c, o, s, m, fr) && 0 <= m.pc < |P| && P[m.pc] == Jmp(l) && to < |P| && P[to] == Def(l)
    ensures Run(P, o, m, 1).pc == to && Rep(P, c, o, s, Run(P, o, m, 1), fr)
  {
    hide Step, Run;
    RepTrace(P, c, o, s, m, fr);
    DoJmp(P, o, m, l, to);
    Run1(P, o, m);
    RepMoves(P, c, o, s, m, Run(P, o, m, 1), fr);
  }

  /** A statement that finishes in front of a label also finishes behind it. */
  lemma ThenLabel(P: seq<Instr>, c: Scope, o: Env, m: State, n: nat, goal: int, l: Label, fuel: nat, fr: Frame,
                  r: Outcome)
    returns (n': nat)
    requires Follows(P, c, o, m, n, goal, fuel, fr, r) && 0 <= goal < |P| && P[goal] == Def(l)
    ensures n' >= n && Follows(P, c, o, m, n', goal + 1, fuel, fr, r)
  {
    hide Step, Run, Rep;
    n' := n;
    if r.Done? && r.ok {
      SkipLabel(P, c, o, r.s, Run(P, o, m, n), l, fr);
      RunPlus(P, o, m, n, 1);
      n' := n + 1;
    }
  }

  lemma ThenJump(P: seq<Instr>, c: Scope, o: Env, m: State, n: nat, goal: int, l: Label, to: nat, fuel: nat,
                 fr: Frame, r: Outcome)
    returns (n': nat)
    requires Follows(P, c, o, m, n, goal, fuel, fr, r) && 0 <= goal < |P| && P[goal] == Jmp(l) && to < |P|
    requires P[to] == Def(l)
    ensures n' >= n && Follows(P, c, o, m, n', to, fuel, fr, r)
  {
    hide Step, Run, Rep;
    n' := n;
    if r.Done? && r.ok {
      FollowJump(P, c, o, r.s, Run(P, o, m, n), l, to, fr);
      RunPlus(P, o, m, n, 1);
      n' := n + 1;
    }
  }

  lemma BranchTaken(P: seq<Instr>, c: Scope, o: Env, l: Label, to: nat, b: bool, s: SourceState, m: State, fr: Frame)
    requires Pushed(P, c, o, s, VBool(b), m, fr) && CodeAt(P, m.pc, Branch(l)) && to < |P| && P[to] == Def(l)
    ensures Run(P, o, m, 3).pc == (if b then m.pc + 3 else to) && Rep(P, c, o, s, Run(P, o, m, 3), fr)
  {
    hide Step, Run;
    BranchRuns(P, o, m, l, b, Over(s.leaks, fr.base), to);
    StartAfter(P, c, o, s.st, m, Run(P, o, m, 3));
  }

  /** The condition of an IF or WHILE and its exit test. */
  lemma {:induction false} CondRuns(P: seq<Instr>, c: Scope, o: Env, e: Expr, tag: nat, l: Label, to: nat,
                                    s: SourceState, m: State, fr: Frame)
    returns (n: nat)
    requires Rep(P, c, o, s, m, fr) && CheckExpr(c, e) == Some(TBool)
    requires CodeAt(P, m.pc, ExprCode(c, e, tag).code + Branch(l)) && to < |P| && P[to] == Def(l)
    ensures match Eval(c, o, e, s.st, s.tr)
      case Trap(k, tr, ok) => ok ==> Faults(P, o, m, n, k, tr)
      case Wrong => false
      case Val(v, tr, ok) => v.VBool? && (ok ==>
        && Run(P, o, m, n).pc == (if v.b then m.pc + |ExprCode(c, e, tag).code| + 3 else to)
        && Rep(P, c, o, s.(tr := tr), Run(P, o, m, n), fr))
  {
    hide Step, Run, Rep, Pushed, ExprCode, Eval;
    var fe := ExprCode(c, e, tag).code;
    CodeSplit(P, m.pc, fe, Branch(l));
    n := ExprPushes(P, c, o, e, tag, s, m, fr);
    var r := Eval(c, o, e, s.st, s.tr);
    if r.Val? && r.ok {
      BranchTaken(P, c, o, l, to, r.v.b, s.(tr := r.tr), Run(P, o, m, n), fr);
      RunPlus(P, o, m, n, 3);
      n := n + 3;
    }
  }

  lemma FaultFollows(P: seq<Instr>, c: Scope, o: Env, s: SourceState, m: State, n: nat, goal: int, fuel: nat, fr: Frame,
                     k: TrapKind, tr: Trace, ok: bool)
    requires Rep(P, c, o, s, m, fr) && (ok ==> Faults(P, o, m, n, k, tr))
    ensures Follows(P, c, o, m, n, goal, fuel, fr, Trapped(k, s.(tr := tr), ok))
  {}

  /** For every accepted statement, frame and start state, the code follows the outcome of the
      statement under any amount of fuel. */
  lemma {:induction false} StmtRuns(P: seq<Instr>, c: Scope, o: Env, t: Stmt, tag: nat, s: SourceState, m: State,
                                    fuel: nat, fr: Frame)
    returns (n: nat)
    requires Rep(P, c, o, s, m, fr) && CheckStmt(c, t) && CodeAt(P, m.pc, StmtCode(c, t, tag).code)
    ensures Follows(P, c, o, m, n, m.pc + |StmtCode(c, t, tag).code|, fuel, fr, Exec(c, o, t, s, fuel))
    decreases fuel, t, 2
  {
    hide Step, Run, Rep, Start, ExprCode, Eval;
    match t
    case Assignment(x, k, e) => n := AssignRuns(P, c, o, x, k, e, tag, s, m, fr);
    case IfElse(_, _, _) => n := IfElseRuns(P, c, o, t, tag, s, m, fuel, fr);
    case IfOnly(_, _) => n := IfOnlyRuns(P, c, o, t, tag, s, m, fuel, fr);
    case Loop(_, _) => n := LoopRuns(P, c, o, t, tag, s, m, fuel, fr);
    case ForTo(_, _, _, _, _) => n := ForRuns(P, c, o, t, tag, s, m, fuel, fr);
    case Block(ss, _) => n := AllRun(P, c, o, ss, tag, s, m, fuel, fr);
    case Show(e) => n := ShowRuns(P, c, o, e, tag, s, m, fuel, fr);
    case CallStmt(f, args) => n := CallStmtRuns(P, c, o, f, args, tag, s, m, fuel, fr);
  }

  lemma {:induction false} AllRun(P: seq<Instr>, c: Scope, o: Env, ss: seq<Stmt>, tag: nat, s: SourceState, m: State,
                                  fuel: nat, fr: Frame)
    returns (n: nat)
    requires Rep(P, c, o, s, m, fr) && CheckStmts(c, ss) && CodeAt(P, m.pc, StmtsCode(c, ss, tag).code)
    ensures Follows(P, c, o, m, n, m.pc + |StmtsCode(c, ss, tag).code|, fuel, fr, ExecAll(c, o, ss, s, fuel))
    decreases fuel, ss, 1
  {
    hide Step, Run, Rep, Exec, StmtCode;
    if ss == [] {
      n := 0;
      RunNone(P, o, m);
    } else {
      var f := StmtCode(c, ss[0], tag);
      var fs := StmtsCode(c, ss[1..], f.tag);
      CodeSplit(P, m.pc, f.code, fs.code);
      n := StmtRuns(P, c, o, ss[0], tag, s, m, fuel, fr);
      var r := Exec(c, o, ss[0], s, fuel);
      if r.Done? && r.ok {
        var k := AllRun(P, c, o, ss[1..], f.tag, r.s, Run(P, o, m, n), fuel, fr);
        Chain(P, c, o, m, n, k, m.pc + |f.code| + |fs.code|, fuel, fuel, fr, ExecAll(c, o, ss[1..], r.s, fuel), true);
        n := n + k;
      }
    }
  }

  lemma IfElseLayout(P: seq<Instr>, pc: int, fe: seq<Instr>, b: seq<Instr>, d0: Instr, ft: seq<Instr>, j: Instr,
                     d1: Instr, ff: seq<Instr>, d2: Instr)
    requires CodeAt(P, pc, fe + b + [d0] + ft + [j, d1] + ff + [d2])
    ensures CodeAt(P, pc, fe + b)
    ensures var p0 := pc + |fe| + |b|; var p1 := p0 + 1 + |ft|; var p2 := p1 + 2 + |ff|;
      && 0 <= p0 && p2 < |P| && P[p0] == d0 && CodeAt(P, p0 + 1, ft)
      && P[p1] == j && P[p1 + 1] == d1 && CodeAt(P, p1 + 2, ff) && P[p2] == d2
  {
    CodeSplit(P, pc, fe + b + [d0] + ft + [j, d1] + ff, [d2]);
    CodeSplit(P, pc, fe + b + [d0] + ft + [j, d1], ff);
    CodeSplit(P, pc, fe + b + [d0] + ft, [j, d1]);
    CodeSplit(P, pc, fe + b + [d0], ft);
    CodeSplit(P, pc, fe + b, [d0]);
    assert [d0][0] == d0 && [j, d1][0] == j && [j, d1][1] == d1 && [d2][0] == d2;
  }

  lemma BranchLength(l: Label)
    ensures |Branch(l)| == 3
  {}

  lemma IfElseShape(c: Scope, t: Stmt, tag: nat)
    requires t.IfElse?
    ensures var g := tag + 1;
      var fe := ExprCode(c, t.c, g); var ft := StmtCode(c, t.thn, fe.tag); var ff := StmtCode(c, t.els, ft.tag);
      StmtCode(c, t, tag).code == fe.code + Branch(LFalse(g)) + [Def(LTrue(g))] + ft.code
                                  + [Jmp(LNext(g)), Def(LFalse(g))] + ff.code + [Def(LNext(g))]
  {
    hide ExprCode, Branch;
  }

  /** Where the parts of an IF with ELSE are. */
  lemma IfElseParts(P: seq<Instr>, c: Scope, t: Stmt, tag: nat, pc: int)
    requires t.IfElse? && CodeAt(P, pc, StmtCode(c, t, tag).code)
    ensures var g := tag + 1;
      var fe := ExprCode(c, t.c, g); var ft := StmtCode(c, t.thn, fe.tag); var ff := StmtCode(c, t.els, ft.tag);
      var p0 := pc + |fe.code| + 3; var p1 := p0 + 1 + |ft.code|; var p2 := p1 + 2 + |ff.code|;
      && CodeAt(P, pc, fe.code + Branch(LFalse(g))) && 0 <= p0 && p2 < |P| && P[p0] == Def(LTrue(g))
      && CodeAt(P, p0 + 1, ft.code) && P[p1] == Jmp(LNext(g)) && P[p1 + 1] == Def(LFalse(g))
      && CodeAt(P, p1 + 2, ff.code) && P[p2] == Def(LNext(g)) && pc + |StmtCode(c, t, tag).code| == p2 + 1
  {
    hide ExprCode, StmtCode, CodeAt, Branch;
    IfElseShape(c, t, tag);
    BranchLength(LFalse(tag + 1));
    var g := tag + 1;
    var fe := ExprCode(c, t.c, g);
    var ft := StmtCode(c, t.thn, fe.tag);
    var ff := StmtCode(c, t.els, ft.tag);
    IfElseLayout(P, pc, fe.code, Branch(LFalse(g)), Def(LTrue(g)), ft.code, Jmp(LNext(g)), Def(LFalse(g)), ff.code,
                 Def(LNext(g)));
  }

  lemma IfElseExec(c: Scope, o: Env, t: Stmt, s: SourceState, fuel: nat)
    requires t.IfElse?
    ensures var r := Eval(c, o, t.c, s.st, s.tr);
      && (r.Trap? ==> Exec(c, o, t, s, fuel) == Trapped(r.k, s.(tr := r.tr), r.ok))
      && (r.Val? && r.v.VBool? ==>
            Exec(c, o, t, s, fuel)
            == Flagged(Exec(c, o, if r.v.b then t.thn else t.els, s.(tr := r.tr), fuel), r.ok))
  {
    hide Eval, Flagged;
  }

  lemma {:induction false} IfElseRuns(P: seq<Instr>, c: Scope, o: Env, t: Stmt, tag: nat, s: SourceState, m: State,
                                      fuel: nat, fr: Frame)
    returns (n: nat)
    requires t.IfElse?
    requires Rep(P, c, o, s, m, fr) && CheckStmt(c, t) && CodeAt(P, m.pc, StmtCode(c, t, tag).code)
    ensures Follows(P, c, o, m, n, m.pc + |StmtCode(c, t, tag).code|, fuel, fr, Exec(c, o, t, s, fuel))
    decreases fuel, t, 1
  {
    hide Step, Run, Rep, ExprCode, Eval, Exec, Flagged, Faults, Follows, StmtCode, CodeAt, Branch, CheckExpr;
    IfElseExec(c, o, t, s, fuel);
    var g := tag + 1;
    var fe := ExprCode(c, t.c, g);
    var ft := StmtCode(c, t.thn, fe.tag);
    var ff := StmtCode(c, t.els, ft.tag);
    IfElseParts(P, c, t, tag, m.pc);
    var p0 := m.pc + |fe.code| + 3;
    var p1 := p0 + 1 + |ft.code|;
    var p2 := p1 + 2 + |ff.code|;
    n := CondRuns(P, c, o, t.c, g, LFalse(g), p1 + 1, s, m, fr);
    var r := Eval(c, o, t.c, s.st, s.tr);
    if r.Trap? {
      FaultFollows(P, c, o, s, m, n, p2 + 1, fuel, fr, r.k, r.tr, r.ok);
    } else {
      var s1 := s.(tr := r.tr);
      if !r.ok {
        Unfollowed(P, c, o, m, n, p2 + 1, fuel, fr, Exec(c, o, if r.v.b then t.thn else t.els, s1, fuel));
      } else {
        n := ChosenRuns(P, c, o, t, tag, r.v.b, s1, m, n, fuel, fr);
        FlagTrue(Exec(c, o, if r.v.b then t.thn else t.els, s1, fuel));
      }
    }
  }

  /** The chosen branch of an IF, from its label to the end of the whole statement. */
  lemma {:induction false} ChosenRuns(P: seq<Instr>, c: Scope, o: Env, t: Stmt, tag: nat, b: bool, s: SourceState,
                                      m: State, n: nat, fuel: nat, fr: Frame) returns (n': nat)
    requires t.IfElse? && CheckStmt(c, t) && CodeAt(P, m.pc, StmtCode(c, t, tag).code)
    requires Rep(P, c, o, s, Run(P, o, m, n), fr)
    requires var fe := ExprCode(c, t.c, tag + 1);
      Run(P, o, m, n).pc == m.pc + |fe.code| + 3 + (if b then 0 else |StmtCode(c, t.thn, fe.tag).code| + 2)
    ensures Follows(P, c, o, m, n', m.pc + |StmtCode(c, t, tag).code|, fuel, fr,
                    Exec(c, o, if b then t.thn else t.els, s, fuel))
    decreases fuel, t, 0
  {
    hide Step, Run, Rep, ExprCode, Follows, Exec, StmtCode, CodeAt, CheckExpr;
    var g := tag + 1;
    var fe := ExprCode(c, t.c, g);
    var ft := StmtCode(c, t.thn, fe.tag);
    var ff := StmtCode(c, t.els, ft.tag);
    IfElseParts(P, c, t, tag, m.pc);
    var p1 := m.pc + |fe.code| + 4 + |ft.code|;
    var p2 := p1 + 2 + |ff.code|;
    var body := if b then t.thn else t.els;
    if b {
      n' := BranchBody(P, c, o, t.thn, fe.tag, LTrue(g), s, m, n, fuel, fr);
      n' := ThenJump(P, c, o, m, n', p1, LNext(g), p2, fuel, fr, Exec(c, o, t.thn, s, fuel));
    } else {
      n' := BranchBody(P, c, o, t.els, ft.tag, LFalse(g), s, m, n, fuel, fr);
    }
    n' := ThenLabel(P, c, o, m, n', p2, LNext(g), fuel, fr, Exec(c, o, body, s, fuel));
  }

  lemma FlagTrue(r: Outcome)
    ensures Flagged(r, true) == r
  {}

  /** Once the flag is down nothing is asked of the machine. */
  lemma Unfollowed(P: seq<Instr>, c: Scope, o: Env, m: State, n: nat, goal: int, fuel: nat, fr: Frame, r: Outcome)
    ensures Follows(P, c, o, m, n, goal, fuel, fr, Flagged(r, false))
  {}

  /** From `n` steps after `m`, at a label in front of a statement: the label and the statement. */
  lemma {:induction false} BranchBody(P: seq<Instr>, c: Scope, o: Env, t: Stmt, tag: nat, l: Label, s: SourceState,
                                      m: State, n: nat, fuel: nat, fr: Frame) returns (n': nat)
    requires var m1 := Run(P, o, m, n);
      && Rep(P, c, o, s, m1, fr) && CheckStmt(c, t) && 0 <= m1.pc < |P| && P[m1.pc] == Def(l)
      && CodeAt(P, m1.pc + 1, StmtCode(c, t, tag).code)
    ensures Follows(P, c, o, m, n', Run(P, o, m, n).pc + 1 + |StmtCode(c, t, tag).code|, fuel, fr,
                    Exec(c, o, t, s, fuel))
    decreases fuel, t, 3
  {
    hide Step, Run, Rep, StmtCode, Exec, Follows;
    var m1 := Run(P, o, m, n);
    SkipLabel(P, c, o, s, m1, l, fr);
    RunPlus(P, o, m, n, 1);
    var k := StmtRuns(P, c, o, t, tag, s, Run(P, o, m1, 1), fuel, fr);
    Chain(P, c, o, m, n + 1, k, m1.pc + 1 + |StmtCode(c, t, tag).code|, fuel, fuel, fr, Exec(c, o, t, s, fuel), true);
    FlagTrue(Exec(c, o, t, s, fuel));
    n' := n + 1 + k;
  }

  lemma IfOnlyLayout(P: seq<Instr>, pc: int, fe: seq<Instr>, b: seq<Instr>, d0: Instr, ft: seq<Instr>, d1: Instr,
                     d2: Instr)
    requires CodeAt(P, pc, fe + b + [d0] + ft + [d1, d2])
    ensures CodeAt(P, pc, fe + b)
    ensures var p0 := pc + |fe| + |b|; var p1 := p0 + 1 + |ft|;
      && 0 <= p0 && p1 + 1 < |P| && P[p0] == d0 && CodeAt(P, p0 + 1, ft) && P[p1] == d1 && P[p1 + 1] == d2
  {
    CodeSplit(P, pc, fe + b + [d0] + ft, [d1, d2]);
    CodeSplit(P, pc, fe + b + [d0], ft);
    CodeSplit(P, pc, fe + b, [d0]);
    assert [d0][0] == d0 && [d1, d2][0] == d1 && [d1, d2][1] == d2;
  }

  lemma IfOnlyParts(P: seq<Instr>, c: Scope, t: Stmt, tag: nat, pc: int)
    requires t.IfOnly? && CodeAt(P, pc, StmtCode(c, t, tag).code)
    ensures var g := tag + 1;
      var fe := ExprCode(c, t.c, g); var ft := StmtCode(c, t.thn, fe.tag);
      var p0 := pc + |fe.code| + 3; var p1 := p0 + 1 + |ft.code|;
      && CodeAt(P, pc, fe.code + Branch(LFalse(g))) && 0 <= p0 && p1 + 1 < |P| && P[p0] == Def(LTrue(g))
      && CodeAt(P, p0 + 1, ft.code) && P[p1] == Def(LFalse(g)) && P[p1 + 1] == Def(LNext(g))
      && pc + |StmtCode(c, t, tag).code| == p1 + 2
  {
    hide ExprCode, CodeAt, Branch;
    BranchLength(LFalse(tag + 1));
    var g := tag + 1;
    var fe := ExprCode(c, t.c, g);
    IfOnlyLayout(P, pc, fe.code, Branch(LFalse(g)), Def(LTrue(g)), StmtCode(c, t.thn, fe.tag).code, Def(LFalse(g)),
                 Def(LNext(g)));
  }

  lemma {:induction false} IfOnlyRuns(P: seq<Instr>, c: Scope, o: Env, t: Stmt, tag: nat, s: SourceState, m: State,
                                      fuel: nat, fr: Frame)
    returns (n: nat)
    requires t.IfOnly?
    requires Rep(P, c, o, s, m, fr) && CheckStmt(c, t) && CodeAt(P, m.pc, StmtCode(c, t, tag).code)
    ensures Follows(P, c, o, m, n, m.pc + |StmtCode(c, t, tag).code|, fuel, fr, Exec(c, o, t, s, fuel))
    decreases fuel, t, 1
  {
    hide Step, Run, Rep, ExprCode, Eval, Follows, StmtCode, CodeAt, Branch, CheckExpr;
    var g := tag + 1;
    var fe := ExprCode(c, t.c, g);
    var ft := StmtCode(c, t.thn, fe.tag);
    IfOnlyParts(P, c, t, tag, m.pc);
    var p1 := m.pc + |fe.code| + 4 + |ft.code|;
    n := CondRuns(P, c, o, t.c, g, LFalse(g), p1, s, m, fr);
    var r := Eval(c, o, t.c, s.st, s.tr);
    if r.Trap? {
      FaultFollows(P, c, o, s, m, n, p1 + 2, fuel, fr, r.k, r.tr, r.ok);
    } else {
      var s1 := s.(tr := r.tr);
      var q := if r.v.b then Exec(c, o, t.thn, s1, fuel) else Done(s1, true);
      if !r.ok {
        Unfollowed(P, c, o, m, n, p1 + 2, fuel, fr, q);
      } else {
        if r.v.b {
          n := BranchBody(P, c, o, t.thn, fe.tag, LTrue(g), s1, m, n, fuel, fr);
        } else {
          DoneFollows(P, c, o, m, n, fuel, fr, s1);
        }
        n := ThenLabel(P, c, o, m, n, p1, LFalse(g), fuel, fr, q);
        n := ThenLabel(P, c, o, m, n, p1 + 1, LNext(g), fuel, fr, q);
        FlagTrue(q);
      }
    }
  }

  lemma DoneFollows(P: seq<Instr>, c: Scope, o: Env, m: State, n: nat, fuel: nat, fr: Frame, s: SourceState)
    requires Rep(P, c, o, s, Run(P, o, m, n), fr)
    ensures Follows(P, c, o, m, n, Run(P, o, m, n).pc, fuel, fr, Done(s, true))
  {}

  lemma LoopLayout(P: seq<Instr>, pc: int, d0: Instr, fe: seq<Instr>, b: seq<Instr>, fb: seq<Instr>, j: Instr,
                   d1: Instr)
    requires CodeAt(P, pc, [d0] + fe + b + fb + [j, d1])
    ensures var p1 := pc + 1 + |fe| + |b|; var p2 := p1 + |fb|;
      && 0 <= pc && p2 + 1 < |P| && P[pc] == d0 && CodeAt(P, pc + 1, fe + b) && CodeAt(P, p1, fb)
      && P[p2] == j && P[p2 + 1] == d1
  {
    CodeSplit(P, pc, [d0] + fe + b + fb, [j, d1]);
    CodeSplit(P, pc, [d0] + fe + b, fb);
    assert [d0] + fe + b == [d0] + (fe + b);
    CodeSplit(P, pc, [d0], fe + b);
    assert [d0][0] == d0 && [j, d1][0] == j && [j, d1][1] == d1;
  }

  /** Where the parts of a WHILE are. */
  lemma LoopParts(P: seq<Instr>, c: Scope, t: Stmt, tag: nat, pc: int)
    requires t.Loop? && CodeAt(P, pc, StmtCode(c, t, tag).code)
    ensures var g := tag + 1;
      var fe := ExprCode(c, t.c, g); var fb := StmtCode(c, t.body, fe.tag);
      var p1 := pc + |fe.code| + 4; var p2 := p1 + |fb.code|;
      && 0 <= pc && p2 + 1 < |P| && P[pc] == Def(LWhile(g)) && CodeAt(P, pc + 1, fe.code + Branch(LNext(g)))
      && CodeAt(P, p1, fb.code) && P[p2] == Jmp(LWhile(g)) && P[p2 + 1] == Def(LNext(g))
      && pc + |StmtCode(c, t, tag).code| == p2 + 2
  {
    hide ExprCode, Branch;
    BranchLength(LNext(tag + 1));
    var g := tag + 1;
    var fe := ExprCode(c, t.c, g);
    LoopLayout(P, pc, Def(LWhile(g)), fe.code, Branch(LNext(g)), StmtCode(c, t.body, fe.tag).code, Jmp(LWhile(g)),
               Def(LNext(g)));
  }

  lemma {:induction false} LoopRuns(P: seq<Instr>, c: Scope, o: Env, t: Stmt, tag: nat, s: SourceState, m: State,
                                    fuel: nat, fr: Frame)
    returns (n: nat)
    requires t.Loop?
    requires Rep(P, c, o, s, m, fr) && CheckStmt(c, t) && CodeAt(P, m.pc, StmtCode(c, t, tag).code)
    ensures Follows(P, c, o, m, n, m.pc + |StmtCode(c, t, tag).code|, fuel, fr, Exec(c, o, t, s, fuel))
    decreases fuel, t, 1
  {
    hide Step, Run, Rep, ExprCode, Eval, Follows, StmtCode, CodeAt, CheckStmt;
    if fuel == 0 {
      n := 0;
      NoFuelFollows(P, c, o, m, m.pc + |StmtCode(c, t, tag).code|, fr, s);
    } else {
      n := RoundRuns(P, c, o, t, tag, s, m, fuel, fr);
    }
  }

  lemma NoFuelFollows(P: seq<Instr>, c: Scope, o: Env, m: State, goal: int, fr: Frame, s: SourceState)
    requires Rep(P, c, o, s, m, fr)
    ensures Follows(P, c, o, m, 0, goal, 0, fr, OutOfFuel(s, true))
  {
    hide Step, Run;
    RunNone(P, o, m);
    RepTrace(P, c, o, s, m, fr);
  }

  /** One round of a WHILE with fuel, and then the rest of them. */
  lemma {:induction false} RoundRuns(P: seq<Instr>, c: Scope, o: Env, t: Stmt, tag: nat, s: SourceState, m: State,
                                     fuel: nat, fr: Frame)
    returns (n: nat)
    requires t.Loop? && fuel > 0
    requires Rep(P, c, o, s, m, fr) && CheckStmt(c, t) && CodeAt(P, m.pc, StmtCode(c, t, tag).code)
    ensures Follows(P, c, o, m, n, m.pc + |StmtCode(c, t, tag).code|, fuel, fr, Exec(c, o, t, s, fuel))
    decreases fuel, t, 0
  {
    hide Step, Run, Rep, ExprCode, Eval, Follows, StmtCode, CodeAt, Branch, CheckExpr;
    var g := tag + 1;
    var fe := ExprCode(c, t.c, g);
    var fb := StmtCode(c, t.body, fe.tag);
    LoopParts(P, c, t, tag, m.pc);
    var p1 := m.pc + |fe.code| + 4;
    var p2 := p1 + |fb.code|;
    SkipLabel(P, c, o, s, m, LWhile(g), fr);
    var m1 := Run(P, o, m, 1);
    var k := CondRuns(P, c, o, t.c, g, LNext(g), p2 + 1, s, m1, fr);
    RunPlus(P, o, m, 1, k);
    n := 1 + k;
    var r := Eval(c, o, t.c, s.st, s.tr);
    if r.Trap? {
      FaultsLater(P, o, m, 1, k, r.k, r.tr, r.ok);
      FaultFollows(P, c, o, s, m, n, p2 + 2, fuel, fr, r.k, r.tr, r.ok);
    } else {
      var s1 := s.(tr := r.tr);
      if !r.ok {
        Unfollowed(P, c, o, m, n, p2 + 2, fuel, fr, Exec(c, o, t, s, fuel));
        FlagAgain(Exec(c, o, t, s, fuel));
      } else if !r.v.b {
        DoneFollows(P, c, o, m, n, fuel, fr, s1);
        n := ThenLabel(P, c, o, m, n, p2 + 1, LNext(g), fuel, fr, Done(s1, true));
      } else {
        n := NextRound(P, c, o, t, tag, s1, m, n, fuel, fr);
      }
    }
  }

  lemma FlagAgain(r: Outcome)
    requires r.Done? || r.Trapped? || r.OutOfFuel? ==> !r.ok
    ensures Flagged(r, false) == r
  {}

  lemma FaultsLater(P: seq<Instr>, o: Env, m: State, n: nat, k: nat, kind: TrapKind, tr: Trace, ok: bool)
    requires Run(P, o, m, n).mem == m.mem
    requires ok ==> Faults(P, o, Run(P, o, m, n), k, kind, tr)
    ensures ok ==> Faults(P, o, m, n + k, kind, tr)
  {
    hide Step;
    RunPlus(P, o, m, n, k);
  }

  /** The outcome of a WHILE whose condition held. */
  function AfterTrue(c: Scope, o: Env, t: Stmt, s: SourceState, fuel: nat): Outcome
    requires t.Loop? && fuel > 0
  {
    match Exec(c, o, t.body, s, fuel)
    case Done(s1, ok1) => Flagged(Exec(c, o, t, s1, fuel - 1), ok1)
    case q => q
  }

  lemma {:induction false} NextRound(P: seq<Instr>, c: Scope, o: Env, t: Stmt, tag: nat, s: SourceState, m: State,
                                     n: nat, fuel: nat, fr: Frame)
    returns (n': nat)
    requires t.Loop? && fuel > 0 && n > 0
    requires CheckStmt(c, t) && CodeAt(P, m.pc, StmtCode(c, t, tag).code)
    requires Rep(P, c, o, s, Run(P, o, m, n), fr)
    requires Run(P, o, m, n).pc == m.pc + 4 + |ExprCode(c, t.c, tag + 1).code|
    ensures Follows(P, c, o, m, n', m.pc + |StmtCode(c, t, tag).code|, fuel, fr, AfterTrue(c, o, t, s, fuel))
    decreases fuel, t.body, 4
  {
    hide Step, Run, Rep, ExprCode, Eval, Follows, Exec, StmtCode, CodeAt, CheckExpr;
    var g := tag + 1;
    var fe := ExprCode(c, t.c, g);
    var fb := StmtCode(c, t.body, fe.tag);
    LoopParts(P, c, t, tag, m.pc);
    var p2 := m.pc + |fe.code| + 4 + |fb.code|;
    var k := StmtRuns(P, c, o, t.body, fe.tag, s, Run(P, o, m, n), fuel, fr);
    var q := Exec(c, o, t.body, s, fuel);
    Chain(P, c, o, m, n, k, p2, fuel, fuel, fr, q, true);
    FlagTrue(q);
    n' := ThenJump(P, c, o, m, n + k, p2, LWhile(g), m.pc, fuel, fr, q);
    var goal := m.pc + |StmtCode(c, t, tag).code|;
    if q.Done? && q.ok {
      FollowsDone(P, c, o, m, n', m.pc, fuel, fr, q);
      var j := LoopRuns(P, c, o, t, tag, q.s, Run(P, o, m, n'), fuel - 1, fr);
      Chain(P, c, o, m, n', j, goal, fuel - 1, fuel, fr, Exec(c, o, t, q.s, fuel - 1), true);
      n' := n' + j;
    } else if q.Done? {
      Unfollowed(P, c, o, m, n', goal, fuel, fr, Exec(c, o, t, q.s, fuel - 1));
    } else {
      NotDone(P, c, o, m, n', m.pc, goal, fuel, fr, q);
    }
  }

  lemma FollowsDone(P: seq<Instr>, c: Scope, o: Env, m: State, n: nat, goal: int, fuel: nat, fr: Frame, r: Outcome)
    requires Follows(P, c, o, m, n, goal, fuel, fr, r) && r.Done? && r.ok
    ensures Run(P, o, m, n).pc == goal && Rep(P, c, o, r.s, Run(P, o, m, n), fr)
  {}

  lemma NotDone(P: seq<Instr>, c: Scope, o: Env, m: State, n: nat, goal: int, goal': int, fuel: nat, fr: Frame,
                r: Outcome)
    requires Follows(P, c, o, m, n, goal, fuel, fr, r) && !r.Done?
    ensures Follows(P, c, o, m, n, goal', fuel, fr, r)
  {}

  lemma PushedFacts(P: seq<Instr>, c: Scope, o: Env, s: SourceState, v: Value, m: State, fr: Frame, x: Name)
    requires Pushed(P, c, o, s, v, m, fr)
    ensures m.status == Running && m.trace == s.tr && m.stk == Cons(Enc(o, v), Over(s.leaks, fr.base))
    ensures m.rsp % 8 == 0 && o.format.Keys == {FmtUnsigned, FmtChar, FmtFloat}
    ensures x in c.vars ==> x in o.addr && Mapped(m.mem, o.addr[x]) && x in s.st && HasType(c, s.st[x], c.vars[x])
                            && Load(m.mem, o.addr[x]) == Enc(o, s.st[x])
  {}

  /** The signed exit test of FOR answers the unsigned question exactly when both words are on
      the same side of 2^63. */
  lemma SignedAgrees(a: Word, b: Word)
    ensures (Signed(a) < Signed(b)) == (a < b) <==> (a < HALF) == (b < HALF)
  {}

  /** The exit test of a FOR, from the bound on the stack. */
  lemma ForTestRuns(P: seq<Instr>, c: Scope, o: Env, x: Name, l: Label, to: nat, hi: Word, s: SourceState, m: State,
                    fr: Frame)
    requires Pushed(P, c, o, s, VInt(hi), m, fr) && CodeAt(P, m.pc, [PopReg(RAX), CmpVar(x), Jcc(L, l)])
    requires x in c.vars && c.vars[x].TInt? && to < |P| && P[to] == Def(l)
    ensures x in s.st && s.st[x].VInt?
    ensures Run(P, o, m, 3).pc == (if Signed(hi) < Signed(s.st[x].w) then to else m.pc + 3)
    ensures Rep(P, c, o, s, Run(P, o, m, 3), fr)
  {
    hide Step, Run, Start, Mapped, Load, CodeAt;
    PushedFacts(P, c, o, s, VInt(hi), m, fr, x);
    StartUnique(P, c, o, s.st, m);
    ForTestSteps(P, o, m, x, l, to, hi, s.st[x].w, Over(s.leaks, fr.base));
    StartAfter(P, c, o, s.st, m, Run(P, o, m, 3));
  }

  lemma ForTestSteps(P: seq<Instr>, o: Env, m: State, x: Name, l: Label, to: nat, hi: Word, v: Word, rest: Stack)
    requires CodeAt(P, m.pc, [PopReg(RAX), CmpVar(x), Jcc(L, l)]) && m.status == Running && m.stk == Cons(hi, rest)
    requires x in o.addr && Mapped(m.mem, o.addr[x]) && Load(m.mem, o.addr[x]) == v
    requires UniqueLabels(P) && to < |P| && P[to] == Def(l)
    ensures var m3 := Run(P, o, m, 3);
      m3 == m.(pc := if Signed(hi) < Signed(v) then to else m.pc + 3, stk := rest, rsp := m.rsp + 8,
               flags := m3.flags, regs := m.regs[RAX := hi])
  {
    hide Step, Run, Mapped, Load;
    var code := [PopReg(RAX), CmpVar(x), Jcc(L, l)];
    assert P[m.pc] == code[0] && P[m.pc + 1] == code[1] && P[m.pc + 2] == code[2];
    var m1 := Step(P, o, m);
    var m2 := Step(P, o, m1);
    DoPopReg(P, o, m, RAX);
    DoCmpVar(P, o, m1, x);
    DoJcc(P, o, m2, L, l, to);
    Run3(P, o, m);
  }

  lemma StartUnique(P: seq<Instr>, c: Scope, o: Env, st: Globals, m: State)
    requires Start(P, c, o, st, m)
    ensures UniqueLabels(P)
  {}

  lemma IncVarRuns(P: seq<Instr>, c: Scope, o: Env, x: Name, s: SourceState, m: State, fr: Frame)
    requires Rep(P, c, o, s, m, fr) && 0 <= m.pc < |P| && P[m.pc] == IncVar(x) && x in c.vars && c.vars[x].TInt?
    ensures x in s.st && s.st[x].VInt?
    ensures Run(P, o, m, 1).pc == m.pc + 1 && Rep(P, c, o, Bump(s, x), Run(P, o, m, 1), fr)
  {
    hide Step, Run, Mapped, Load;
    StartTarget(P, c, o, s.st, m, x);
    assert HasType(c, s.st[x], c.vars[x]);
    DoIncVar(P, o, m, x);
    Run1(P, o, m);
    RepStored(P, c, o, s, m, Run(P, o, m, 1), x, VInt(Wrap(s.st[x].w + 1)), fr);
  }

  lemma ForLayout(P: seq<Instr>, pc: int, f0: seq<Instr>, d0: Instr, f1: seq<Instr>, b: seq<Instr>, fb: seq<Instr>,
                  i: Instr, j: Instr, d1: Instr)
    requires CodeAt(P, pc, f0 + [d0] + f1 + b + fb + [i, j, d1])
    ensures var p0 := pc + |f0|; var p1 := p0 + 1 + |f1|; var p2 := p1 + |b| + |fb|;
      && CodeAt(P, pc, f0) && 0 <= p0 && p2 + 2 < |P| && P[p0] == d0 && CodeAt(P, p0 + 1, f1) && CodeAt(P, p1, b)
      && CodeAt(P, p1 + |b|, fb) && P[p2] == i && P[p2 + 1] == j && P[p2 + 2] == d1
  {
    CodeSplit(P, pc, f0 + [d0] + f1 + b + fb, [i, j, d1]);
    CodeSplit(P, pc, f0 + [d0] + f1 + b, fb);
    CodeSplit(P, pc, f0 + [d0] + f1, b);
    CodeSplit(P, pc, f0 + [d0], f1);
    CodeSplit(P, pc, f0, [d0]);
    assert [d0][0] == d0 && [i, j, d1][0] == i && [i, j, d1][1] == j && [i, j, d1][2] == d1;
  }

  /** Where the parts of a FOR are, from its loop label on. */
  ghost predicate ForAt(P: seq<Instr>, c: Scope, x: Name, to: Expr, b: Stmt, g: nat, pc: int) {
    var f1 := ExprCode(c, to, g);
    var fb := StmtCode(c, b, f1.tag);
    var p1 := pc + 1 + |f1.code|;
    var p2 := p1 + 3 + |fb.code|;
    && 0 <= pc && p2 + 2 < |P| && P[pc] == Def(LFor(g)) && CodeAt(P, pc + 1, f1.code)
    && CodeAt(P, p1, [PopReg(RAX), CmpVar(x), Jcc(L, LNext(g))])
    && CodeAt(P, p1 + 3, fb.code) && P[p2] == IncVar(x) && P[p2 + 1] == Jmp(LFor(g)) && P[p2 + 2] == Def(LNext(g))
  }

  function ForLength(c: Scope, to: Expr, b: Stmt, g: nat): nat {
    |ExprCode(c, to, g).code| + |StmtCode(c, b, ExprCode(c, to, g).tag).code| + 7
  }

  /** Where the parts of a FOR are. */
  lemma ForParts(P: seq<Instr>, c: Scope, t: Stmt, tag: nat, pc: int)
    requires t.ForTo? && CodeAt(P, pc, StmtCode(c, t, tag).code)
    ensures var f0 := ExprCode(c, t.from, tag); var store := StoreCode(t.x, t.carets); var g := f0.tag + 1;
      && CodeAt(P, pc, f0.code + store) && ForAt(P, c, t.x, t.to, t.body, g, pc + |f0.code| + |store|)
      && |StmtCode(c, t, tag).code| == |f0.code| + |store| + ForLength(c, t.to, t.body, g)
  {
    hide ExprCode, StoreCode;
    var f0 := ExprCode(c, t.from, tag);
    var g := f0.tag + 1;
    var f1 := ExprCode(c, t.to, g);
    ForLayout(P, pc, f0.code + StoreCode(t.x, t.carets), Def(LFor(g)), f1.code,
              [PopReg(RAX), CmpVar(t.x), Jcc(L, LNext(g))],
              StmtCode(c, t.body, f1.tag).code, IncVar(t.x), Jmp(LFor(g)), Def(LNext(g)));
  }

  lemma {:induction false} ForRuns(P: seq<Instr>, c: Scope, o: Env, t: Stmt, tag: nat, s: SourceState, m: State,
                                   fuel: nat, fr: Frame)
    returns (n: nat)
    requires t.ForTo?
    requires Rep(P, c, o, s, m, fr) && CheckStmt(c, t) && CodeAt(P, m.pc, StmtCode(c, t, tag).code)
    ensures Follows(P, c, o, m, n, m.pc + |StmtCode(c, t, tag).code|, fuel, fr, Exec(c, o, t, s, fuel))
    decreases fuel, t, 1
  {
    hide Step, Run, Rep, ExprCode, Eval, Follows, ExecAssign, ExecFor, StmtCode, StoreCode, CodeAt, ForAt, ForLength,
      CheckExpr;
    var f0 := ExprCode(c, t.from, tag);
    var g := f0.tag + 1;
    ForParts(P, c, t, tag, m.pc);
    var pc := m.pc + |f0.code| + |StoreCode(t.x, t.carets)|;
    var goal := pc + ForLength(c, t.to, t.body, g);
    n := AssignRuns(P, c, o, t.x, t.carets, t.from, tag, s, m, fr);
    var r := ExecAssign(c, o, t.x, t.carets, t.from, s);
    if r.Done? && r.ok {
      FollowsDone(P, c, o, m, n, pc, 0, fr, r);
      var k := ForRoundsRun(P, c, o, t.x, t.to, t.body, g, r.s, Run(P, o, m, n), fuel, fr);
      Chain(P, c, o, m, n, k, goal, fuel, fuel, fr, ExecFor(c, o, t.x, t.to, t.body, r.s, fuel), true);
      n := n + k;
    } else if r.Done? {
      Unfollowed(P, c, o, m, n, goal, fuel, fr, ExecFor(c, o, t.x, t.to, t.body, r.s, fuel));
    } else {
      AssignNeverStalls(P, c, o, t.x, t.carets, t.from, s, m, n, pc, goal, fuel, fr);
    }
  }

  lemma AssignNeverStalls(P: seq<Instr>, c: Scope, o: Env, x: Name, k: nat, e: Expr, s: SourceState, m: State, n: nat,
                          goal: int, goal': int, fuel: nat, fr: Frame)
    requires Follows(P, c, o, m, n, goal, 0, fr, ExecAssign(c, o, x, k, e, s)) && !ExecAssign(c, o, x, k, e, s).Done?
    ensures Follows(P, c, o, m, n, goal', fuel, fr, ExecAssign(c, o, x, k, e, s))
  {}

  lemma {:induction false} ForRoundsRun(P: seq<Instr>, c: Scope, o: Env, x: Name, to: Expr, b: Stmt, g: nat,
                                        s: SourceState, m: State, fuel: nat, fr: Frame) returns (n: nat)
    requires Rep(P, c, o, s, m, fr) && ForAt(P, c, x, to, b, g, m.pc)
    requires x in c.vars && c.vars[x].TInt? && CheckExpr(c, to) == Some(TInt) && CheckStmt(c, b)
    ensures Follows(P, c, o, m, n, m.pc + ForLength(c, to, b, g), fuel, fr, ExecFor(c, o, x, to, b, s, fuel))
    decreases fuel, b, 6
  {
    hide Step, Run, Rep, ExprCode, StmtCode, Eval, Follows, Exec, ForAt, ForLength, CheckStmt, CheckExpr, Bump;
    if fuel == 0 {
      n := 0;
      NoFuelFollows(P, c, o, m, m.pc + ForLength(c, to, b, g), fr, s);
    } else {
      var goal := m.pc + ForLength(c, to, b, g);
      var r := Eval(c, o, to, s.st, s.tr);
      n := ForHeadRuns(P, c, o, x, to, b, g, s, m, fr);
      RepTyped(P, c, o, s, m, fr, x);
      if r.Trap? {
        FaultFollows(P, c, o, s, m, n, goal, fuel, fr, r.k, r.tr, r.ok);
      } else {
        var s1 := s.(tr := r.tr);
        var v := s.st[x].w;
        var same := (r.v.w < HALF) == (v < HALF);
        SignedAgrees(r.v.w, v);
        if !(r.ok && same) {
          Unfollowed(P, c, o, m, n, goal, fuel, fr, ExecFor(c, o, x, to, b, s, fuel));
          FlagAgain(ExecFor(c, o, x, to, b, s, fuel));
        } else if r.v.w < v {
          n := ForExit(P, c, o, x, to, b, g, s1, m, n, fuel, fr);
        } else {
          n := NextForRound(P, c, o, x, to, b, g, s1, m, n, fuel, fr);
          FlagTrue(Exec(c, o, b, s1, fuel));
        }
      }
    }
  }

  lemma ForExit(P: seq<Instr>, c: Scope, o: Env, x: Name, to: Expr, b: Stmt, g: nat, s: SourceState, m: State, n: nat,
                fuel: nat, fr: Frame) returns (n': nat)
    requires ForAt(P, c, x, to, b, g, m.pc) && Rep(P, c, o, s, Run(P, o, m, n), fr)
    requires Run(P, o, m, n).pc == m.pc + ForLength(c, to, b, g) - 1
    ensures Follows(P, c, o, m, n', m.pc + ForLength(c, to, b, g), fuel, fr, Done(s, true))
  {
    hide Step, Run, Rep, ExprCode, StmtCode, Follows;
    DoneFollows(P, c, o, m, n, fuel, fr, s);
    n' := ThenLabel(P, c, o, m, n, m.pc + ForLength(c, to, b, g) - 1, LNext(g), fuel, fr, Done(s, true));
  }

  lemma RepTyped(P: seq<Instr>, c: Scope, o: Env, s: SourceState, m: State, fr: Frame, x: Name)
    requires Rep(P, c, o, s, m, fr) && x in c.vars && c.vars[x].TInt?
    ensures x in s.st && s.st[x].VInt?
  {
    assert HasType(c, s.st[x], c.vars[x]);
  }

  /** The loop label, the bound and the exit test. */
  lemma {:induction false} ForHeadRuns(P: seq<Instr>, c: Scope, o: Env, x: Name, to: Expr, b: Stmt, g: nat,
                                       s: SourceState, m: State, fr: Frame)
    returns (n: nat)
    requires Rep(P, c, o, s, m, fr) && ForAt(P, c, x, to, b, g, m.pc)
    requires x in c.vars && c.vars[x].TInt? && CheckExpr(c, to) == Some(TInt)
    ensures n > 0 && x in s.st && s.st[x].VInt?
    ensures match Eval(c, o, to, s.st, s.tr)
      case Trap(k, tr, ok) => ok ==> Faults(P, o, m, n, k, tr)
      case Wrong => false
      case Val(v, tr, ok) => v.VInt? && (ok ==>
        && Run(P, o, m, n).pc == (if Signed(v.w) < Signed(s.st[x].w) then m.pc + ForLength(c, to, b, g) - 1
                                  else m.pc + 4 + |ExprCode(c, to, g).code|)
        && Rep(P, c, o, s.(tr := tr), Run(P, o, m, n), fr))
  {
    hide Step, Run, Rep, ExprCode, StmtCode, Eval, Pushed, CheckExpr, CodeAt, Faults;
    RepTyped(P, c, o, s, m, fr, x);
    SkipLabel(P, c, o, s, m, LFor(g), fr);
    var m1 := Run(P, o, m, 1);
    var k := ExprPushes(P, c, o, to, g, s, m1, fr);
    RunPlus(P, o, m, 1, k);
    n := 1 + k;
    var r := Eval(c, o, to, s.st, s.tr);
    if r.Val? && r.ok {
      ForTestRuns(P, c, o, x, LNext(g), m.pc + ForLength(c, to, b, g) - 1, r.v.w, s.(tr := r.tr), Run(P, o, m, n), fr);
      RunPlus(P, o, m, n, 3);
      n := n + 3;
    } else if r.Trap? {
      FaultsLater(P, o, m, 1, k, r.k, r.tr, r.ok);
    }
  }

  /** The outcome of a FOR whose exit test failed. */
  function AfterTest(c: Scope, o: Env, x: Name, to: Expr, b: Stmt, s: SourceState, fuel: nat): Outcome
    requires fuel > 0
  {
    match Exec(c, o, b, s, fuel)
    case Done(s1, ok1) =>
      if x !in s1.st || !s1.st[x].VInt? then Stray
      else Flagged(ExecFor(c, o, x, to, b, Bump(s1, x), fuel - 1), ok1)
    case q => q
  }

  lemma {:induction false} NextForRound(P: seq<Instr>, c: Scope, o: Env, x: Name, to: Expr, b: Stmt, g: nat,
                                        s: SourceState, m: State, n: nat, fuel: nat, fr: Frame) returns (n': nat)
    requires ForAt(P, c, x, to, b, g, m.pc) && n > 0 && fuel > 0
    requires Rep(P, c, o, s, Run(P, o, m, n), fr) && Run(P, o, m, n).pc == m.pc + 4 + |ExprCode(c, to, g).code|
    requires x in c.vars && c.vars[x].TInt? && CheckExpr(c, to) == Some(TInt) && CheckStmt(c, b)
    ensures Follows(P, c, o, m, n', m.pc + ForLength(c, to, b, g), fuel, fr, AfterTest(c, o, x, to, b, s, fuel))
    decreases fuel, b, 5
  {
    hide Step, Run, Rep, ExprCode, StmtCode, Eval, Follows, Exec, ExecFor, CheckStmt, CheckExpr, Bump, CodeAt;
    var tag := ExprCode(c, to, g).tag;
    var p2 := m.pc + ForLength(c, to, b, g) - 3;
    var k := StmtRuns(P, c, o, b, tag, s, Run(P, o, m, n), fuel, fr);
    var q := Exec(c, o, b, s, fuel);
    Chain(P, c, o, m, n, k, p2, fuel, fuel, fr, q, true);
    FlagTrue(q);
    n' := n + k;
    var goal := m.pc + ForLength(c, to, b, g);
    if q.Done? && q.ok {
      FollowsDone(P, c, o, m, n', p2, fuel, fr, q);
      var s2 := BumpBack(P, c, o, x, g, q.s, m, n', m.pc, p2, fr);
      var j := ForRoundsRun(P, c, o, x, to, b, g, s2, Run(P, o, m, n' + 2), fuel - 1, fr);
      Chain(P, c, o, m, n' + 2, j, goal, fuel - 1, fuel, fr, ExecFor(c, o, x, to, b, s2, fuel - 1), true);
      n' := n' + 2 + j;
    } else if q.Done? {
      if x in q.s.st && q.s.st[x].VInt? {
        Unfollowed(P, c, o, m, n', goal, fuel, fr, ExecFor(c, o, x, to, b, Bump(q.s, x), fuel - 1));
      } else {
        StrayFollows(P, c, o, m, n', goal, fuel, fr);
      }
    } else {
      NotDone(P, c, o, m, n', p2, goal, fuel, fr, q);
    }
  }

  lemma StrayFollows(P: seq<Instr>, c: Scope, o: Env, m: State, n: nat, goal: int, fuel: nat, fr: Frame)
    ensures Follows(P, c, o, m, n, goal, fuel, fr, Stray)
  {}

  /** The increment at the end of a round and the jump back. */
  lemma BumpBack(P: seq<Instr>, c: Scope, o: Env, x: Name, g: nat, s: SourceState, m: State, n: nat, pc: int, p2: int,
                 fr: Frame)
    returns (s2: SourceState)
    requires Rep(P, c, o, s, Run(P, o, m, n), fr) && Run(P, o, m, n).pc == p2 && x in c.vars && c.vars[x].TInt?
    requires 0 <= p2 && p2 + 1 < |P| && P[p2] == IncVar(x) && P[p2 + 1] == Jmp(LFor(g)) && 0 <= pc < |P|
    requires P[pc] == Def(LFor(g))
    ensures x in s.st && s.st[x].VInt? && s2 == Bump(s, x)
    ensures Run(P, o, m, n + 2).pc == pc && Rep(P, c, o, s2, Run(P, o, m, n + 2), fr)
  {
    hide Step, Run, Rep;
    var m1 := Run(P, o, m, n);
    IncVarRuns(P, c, o, x, s, m1, fr);
    s2 := Bump(s, x);
    var m2 := Run(P, o, m1, 1);
    FollowJump(P, c, o, s2, m2, LFor(g), pc, fr);
    RunPlus(P, o, m1, 1, 1);
    RunPlus(P, o, m, n, 2);
  }

  lemma PrintfRuns(P: seq<Instr>, o: Env, m: State, e: Event)
    requires CodeAt(P, m.pc, AlignedCall(CallPrintf)) && m.status == Running && m.rsp % 8 == 0
    requires PrintfEvent(o, m.regs) == Some(e)
    ensures var m5 := Run(P, o, m, 5);
      m5 == m.(pc := m.pc + 5, flags := None, r12 := m5.r12, trace := m.trace + [e], regs := m5.regs)
  {
    hide Step, Run;
    CodeSplit(P, m.pc, ALIGN, [CallPrintf, OrR12Rsp]);
    AlignRuns(P, o, m);
    var m3 := Run(P, o, m, 3);
    assert P[m.pc + 3] == [CallPrintf, OrR12Rsp][0];
    DoCallPrintf(P, o, m3);
    AlignedCallRuns(P, o, m, CallPrintf, e);
  }

  /** The registers printf reads: the format in %rdi, and the value in %rsi or, with %al set, %xmm0. */
  lemma PrintfArgs(c: Scope, o: Env, t: Ty, v: Value, r0: Regs, rax: Word)
    requires o.format.Keys == {FmtUnsigned, FmtChar, FmtFloat} && Distinct(o)
    requires HasType(c, v, t) && !t.TPtr? && (t.TDouble? ==> rax % 256 > 0)
    ensures PrintfEvent(o, r0[RDI := o.format[FormatOf(t)]][ArgTarget(t, 1, 0) := ArgWord(v)][RAX := rax])
         == Some(Printed(FormatFor(v), ArgWord(v)))
  {
  }

  ghost predicate Distinct(o: Env)
    requires o.format.Keys == {FmtUnsigned, FmtChar, FmtFloat}
  {
    o.format[FmtUnsigned] != o.format[FmtChar]
    && o.format[FmtUnsigned] != o.format[FmtFloat] && o.format[FmtChar] != o.format[FmtFloat]
  }

  /** Loading the format, the value and the vector-register count for printf. */
  lemma DisplaySetup(P: seq<Instr>, o: Env, t: Ty, v: Value, m: State, rest: Stack) returns (n: nat)
    requires CodeAt(P, m.pc, [LeaFormat(FormatOf(t), RDI)] + PopArg(t, 1, 0) + [MovbAl(if t.TDouble? then 1 else 0)])
    requires m.status == Running && m.stk == Cons(Enc(o, v), rest) && !v.VPtr? && (t.TBool? <==> v.VBool?)
    requires o.format.Keys == {FmtUnsigned, FmtChar, FmtFloat}
    ensures var m3 := Run(P, o, m, n);
      var rax := Get(m3.regs, RAX);
      && m3 == m.(pc := m.pc + 2 + |PopArg(t, 1, 0)|, stk := rest, rsp := m.rsp + 8, flags := m3.flags,
                  regs := m.regs[RDI := o.format[FormatOf(t)]][ArgTarget(t, 1, 0) := ArgWord(v)][RAX := rax])
      && (t.TDouble? ==> rax % 256 > 0)
  {
    hide Step, Run;
    var k := if t.TDouble? then 1 else 0;
    CodeSplit(P, m.pc, [LeaFormat(FormatOf(t), RDI)] + PopArg(t, 1, 0), [MovbAl(k)]);
    CodeSplit(P, m.pc, [LeaFormat(FormatOf(t), RDI)], PopArg(t, 1, 0));
    assert P[m.pc] == [LeaFormat(FormatOf(t), RDI)][0];
    DoLeaFormat(P, o, m, FormatOf(t), RDI);
    var m1 := Step(P, o, m);
    Run1(P, o, m);
    PopArgRuns(P, o, m1, v, t, 1, 0, rest);
    var j := |PopArg(t, 1, 0)|;
    var m2 := Run(P, o, m1, j);
    assert P[m2.pc] == [MovbAl(k)][0];
    LowByte(Get(m2.regs, RAX), k);
    DoMovbAl(P, o, m2, k);
    Run1(P, o, m2);
    RunPlus(P, o, m, 1, j + 1);
    RunPlus(P, o, m1, j, 1);
    n := 1 + j + 1;
  }

  lemma DisplayRuns(P: seq<Instr>, c: Scope, o: Env, t: Ty, v: Value, s: SourceState, m: State, fr: Frame)
    returns (n: nat)
    requires Pushed(P, c, o, s, v, m, fr) && CodeAt(P, m.pc, DisplayCode(t)) && HasType(c, v, t) && !t.TPtr?
    ensures Run(P, o, m, n).pc == m.pc + |DisplayCode(t)|
    ensures Rep(P, c, o, s.(tr := s.tr + [Printed(FormatFor(v), ArgWord(v))]), Run(P, o, m, n), fr)
  {
    hide Step, Run, Start, PopArg, PrintfEvent, Mapped, Load;
    var setup := [LeaFormat(FormatOf(t), RDI)] + PopArg(t, 1, 0) + [MovbAl(if t.TDouble? then 1 else 0)];
    CodeSplit(P, m.pc, setup, AlignedCall(CallPrintf));
    PushedFacts(P, c, o, s, v, m, fr, FMOD);
    PushedFormats(P, c, o, s, v, m, fr);
    var k := DisplaySetup(P, o, t, v, m, Over(s.leaks, fr.base));
    var m1 := Run(P, o, m, k);
    PrintfArgs(c, o, t, v, m.regs, Get(m1.regs, RAX));
    PrintfRuns(P, o, m1, Printed(FormatFor(v), ArgWord(v)));
    RunPlus(P, o, m, k, 5);
    n := k + 5;
    StartAfter(P, c, o, s.st, m, Run(P, o, m, n));
  }

  lemma PushedFormats(P: seq<Instr>, c: Scope, o: Env, s: SourceState, v: Value, m: State, fr: Frame)
    requires Pushed(P, c, o, s, v, m, fr)
    ensures o.format.Keys == {FmtUnsigned, FmtChar, FmtFloat} && Distinct(o)
  {}

  lemma ShowRuns(P: seq<Instr>, c: Scope, o: Env, e: Expr, tag: nat, s: SourceState, m: State, fuel: nat, fr: Frame)
    returns (n: nat)
    requires Rep(P, c, o, s, m, fr) && CheckStmt(c, Show(e)) && CodeAt(P, m.pc, StmtCode(c, Show(e), tag).code)
    ensures Follows(P, c, o, m, n, m.pc + |StmtCode(c, Show(e), tag).code|, fuel, fr, Exec(c, o, Show(e), s, fuel))
  {
    hide Step, Run, Rep, Pushed, ExprCode, Eval, DisplayCode;
    var t := CheckExpr(c, e).value;
    var fe := ExprCode(c, e, tag).code;
    CodeSplit(P, m.pc, fe, DisplayCode(t));
    n := ExprPushes(P, c, o, e, tag, s, m, fr);
    var r := Eval(c, o, e, s.st, s.tr);
    if r.Val? && r.ok {
      var k := DisplayRuns(P, c, o, t, r.v, s.(tr := r.tr), Run(P, o, m, n), fr);
      RunPlus(P, o, m, n, k);
      n := n + k;
    } else if r.Trap? {
      FaultFollows(P, c, o, s, m, n, m.pc + |fe| + |DisplayCode(t)|, fuel, fr, r.k, r.tr, r.ok);
    }
  }

  /** A call as a statement: a result that is not VOID stays on the stack. */
  lemma CallStmtRuns(P: seq<Instr>, c: Scope, o: Env, f: Name, args: seq<Expr>, tag: nat, s: SourceState, m: State,
                     fuel: nat, fr: Frame)
    returns (n: nat)
    requires Rep(P, c, o, s, m, fr) && CheckStmt(c, CallStmt(f, args))
    requires CodeAt(P, m.pc, StmtCode(c, CallStmt(f, args), tag).code)
    ensures Follows(P, c, o, m, n, m.pc + |StmtCode(c, CallStmt(f, args), tag).code|, fuel, fr,
                    Exec(c, o, CallStmt(f, args), s, fuel))
  {
    hide Step, Run, Start, ArgsCode, FinishCall, EvalArgs, KeepsArgs, Passed, ArgWords, LeftBy;
    RepTrace(P, c, o, s, m, fr);
    StartArgs(P, c, o, args, c.funcs[f].params, s, m);
    n := CallRuns(P, c, o, f, args, tag, s.st, m);
    var q := EvalArgs(c, o, args, s.st, s.tr);
    if q.Vals? && q.ok && KeepsArgs(c, args, 0, 0) {
      StartPassed(P, c, o, f, args, s.st, m);
      StartAfter(P, c, o, s.st, m, Run(P, o, m, n));
    }
  }

  lemma StartArgs(P: seq<Instr>, c: Scope, o: Env, args: seq<Expr>, ts: seq<Ty>, s: SourceState, m: State)
    requires Start(P, c, o, s.st, m) && CheckArgs(c, args, ts)
    ensures !EvalArgs(c, o, args, s.st, s.tr).ArgWrong?
  {
    ArgsSound(c, o, args, ts, s.st, s.tr);
  }
}
