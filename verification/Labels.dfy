/** Label integrity: every label of a program is defined once and every jump has a target,
    although comparisons, IF, WHILE and FOR all number their labels from one counter. */
module Labels {
  import opened Syntax
  import opened Typing
  import opened Machine
  import opened Emission

  ghost function Defined(code: seq<Instr>): set<Label> {
    set i | 0 <= i < |code| && code[i].Def? :: code[i].l
  }

  predicate IsJump(i: Instr) {
    i.Jmp? || i.Jcc?
  }

  ghost function Targets(code: seq<Instr>): set<Label> {
    set i | 0 <= i < |code| && IsJump(code[i]) :: code[i].l
  }

  /** Tags of the labels that a construct defines, relative to the counter. */
  ghost predicate TagsIn(code: seq<Instr>, before: nat, after: nat) {
    forall l :: l in Defined(code) ==> before < l.tag <= after
  }

  ghost predicate WellLabelled(f: Frag, before: nat) {
    UniqueLabels(f.code) && TagsIn(f.code, before, f.tag) && Targets(f.code) <= Defined(f.code)
  }

  lemma Concat(a: seq<Instr>, b: seq<Instr>)
    ensures Defined(a + b) == Defined(a) + Defined(b) && Targets(a + b) == Targets(a) + Targets(b)
    ensures UniqueLabels(a) && UniqueLabels(b) && Defined(a) !! Defined(b) ==> UniqueLabels(a + b)
  {
    var c := a + b;
    forall l | l in Defined(a) + Defined(b) ensures l in Defined(c) {
      if l in Defined(a) {
        var i :| 0 <= i < |a| && a[i].Def? && a[i].l == l;
        assert c[i] == a[i];
      } else {
        var i :| 0 <= i < |b| && b[i].Def? && b[i].l == l;
        assert c[|a| + i] == b[i];
      }
    }
    forall l | l in Targets(a) + Targets(b) ensures l in Targets(c) {
      if l in Targets(a) {
        var i :| 0 <= i < |a| && IsJump(a[i]) && a[i].l == l;
        assert c[i] == a[i];
      } else {
        var i :| 0 <= i < |b| && IsJump(b[i]) && b[i].l == l;
        assert c[|a| + i] == b[i];
      }
    }
    if UniqueLabels(a) && UniqueLabels(b) && Defined(a) !! Defined(b) {
      forall i, j | 0 <= i < j < |c| && c[i].Def? && c[j].Def? ensures c[i].l != c[j].l {
        if i < |a| <= j {
          assert c[i].l in Defined(a) && c[j].l in Defined(b);
        }
      }
    }
  }

  /** Sequences without labels and jumps. */
  ghost predicate Plain(code: seq<Instr>) {
    forall i :: 0 <= i < |code| ==> !code[i].Def? && !IsJump(code[i])
  }

  lemma PlainFacts(code: seq<Instr>)
    requires Plain(code)
    ensures Defined(code) == {} && Targets(code) == {} && UniqueLabels(code)
  {}

  lemma PlainLabels(code: seq<Instr>, tag: nat)
    requires Plain(code)
    ensures WellLabelled(Frag(code, tag), tag)
  {
    PlainFacts(code);
  }

  lemma BinPlain(op: BinOp, t: Ty)
    ensures Plain(BinCode(op, t))
  {}

  lemma CallPlain(c: Scope, f: Name)
    ensures f in c.funcs ==> Plain(FinishCall(f, c.funcs[f].ret))
  {}

  lemma AppendPlain(f: Frag, before: nat, code: seq<Instr>)
    requires WellLabelled(f, before) && Plain(code)
    ensures WellLabelled(Frag(f.code + code, f.tag), before)
  {
    PlainFacts(code);
    Concat(f.code, code);
  }

  /** Two constructs in a row never share a label. */
  lemma InSequence(f: Frag, g: Frag, before: nat)
    requires WellLabelled(f, before) && WellLabelled(g, f.tag) && before <= f.tag <= g.tag
    ensures WellLabelled(Frag(f.code + g.code, g.tag), before)
  {
    Concat(f.code, g.code);
  }

  lemma {:induction false} ChainPlain(k: nat)
    ensures Plain(LoadChain(k))
  {
    if k > 0 {
      ChainPlain(k - 1);
    }
  }

  lemma MaterialiseLabels(c: Cond, tag: nat)
    requires tag > 0
    ensures WellLabelled(Frag(Materialise(c, tag), tag), tag - 1)
  {
    var code := Materialise(c, tag);
    assert code[3].l in Defined(code) && code[5].l in Defined(code);
  }

  lemma AppendCompare(f: Frag, op: RelOp, t: Ty, before: nat)
    requires WellLabelled(f, before) && before <= f.tag
    ensures WellLabelled(Frag(f.code + RelCode(op, t, f.tag + 1), f.tag + 1), before)
  {
    var m := Materialise(JumpCond(op), f.tag + 1);
    AppendPlain(f, before, CompareCode(t));
    MaterialiseLabels(JumpCond(op), f.tag + 1);
    InSequence(Frag(f.code + CompareCode(t), f.tag), Frag(m, f.tag + 1), before);
    assert f.code + RelCode(op, t, f.tag + 1) == f.code + CompareCode(t) + m;
  }

  lemma {:induction false} ExprLabels(c: Scope, e: Expr, tag: nat)
    ensures WellLabelled(ExprCode(c, e, tag), tag)
    decreases e, 1
  {
    hide WellLabelled, OperandsCode, ArgsCode, BinCode, RelCode, FinishCall;
    match e
    case Lit(_) => PlainLabels(ExprCode(c, e, tag).code, tag);
    case Var(_) => PlainLabels(ExprCode(c, e, tag).code, tag);
    case Ref(_) => PlainLabels(ExprCode(c, e, tag).code, tag);
    case Paren(a) => ExprLabels(c, a, tag);
    case Deref(a) => ExprLabels(c, a, tag); AppendPlain(ExprCode(c, a, tag), tag, LOAD_POINTED);
    case Negate(a) => ExprLabels(c, a, tag); AppendPlain(ExprCode(c, a, tag), tag, [NotTop]);
    case Bin(op, l, _) =>
      OperandLabels(c, e, tag);
      BinPlain(op, TyOf(c, l));
      AppendPlain(OperandsCode(c, e, tag), tag, BinCode(op, TyOf(c, l)));
    case Rel(op, l, _) =>
      OperandLabels(c, e, tag);
      AppendCompare(OperandsCode(c, e, tag), op, TyOf(c, l), tag);
    case Conv(a, te) =>
      ExprLabels(c, a, tag);
      var to := Resolve(c.aliases, te);
      AppendPlain(ExprCode(c, a, tag), tag, if to.Some? then ConvCode(TyOf(c, a), to.value) else []);
    case Call(f, args) =>
      ArgLabels(c, args, tag, 0, 0);
      CallPlain(c, f);
      AppendPlain(ArgsCode(c, args, tag, 0, 0), tag, if f in c.funcs then FinishCall(f, c.funcs[f].ret) else []);
  }

  lemma {:induction false} OperandLabels(c: Scope, e: Expr, tag: nat)
    requires e.Bin? || e.Rel?
    ensures WellLabelled(OperandsCode(c, e, tag), tag)
    decreases e, 0
  {
    var fl := ExprCode(c, e.l, tag);
    ExprLabels(c, e.l, tag);
    ExprLabels(c, e.r, fl.tag);
    InSequence(fl, ExprCode(c, e.r, fl.tag), tag);
  }

  lemma {:induction false} ArgLabels(c: Scope, args: seq<Expr>, tag: nat, ri: nat, fi: nat)
    ensures WellLabelled(ArgsCode(c, args, tag, ri, fi), tag)
    decreases args, 2
  {
    if args == [] {
      PlainFacts([]);
    } else {
      var t := TyOf(c, args[0]);
      var fa := ExprCode(c, args[0], tag);
      var ri', fi' := if t.TDouble? then ri else ri + 1, if t.TDouble? then fi + 1 else fi;
      ExprLabels(c, args[0], tag);
      AppendPlain(fa, tag, PopArg(t, ri, fi));
      ArgLabels(c, args[1..], fa.tag, ri', fi');
      InSequence(Frag(fa.code + PopArg(t, ri, fi), fa.tag), ArgsCode(c, args[1..], fa.tag, ri', fi'), tag);
    }
  }

  lemma StorePlain(x: Name, k: nat)
    ensures Plain(StoreCode(x, k))
  {
    if k > 0 {
      ChainPlain(k - 1);
    }
  }

  /** Nested and sibling constructs: for every statement, each label is defined once, with a tag
      in (counter before, counter after], and every jump of the statement stays inside it. */
  lemma {:induction false} StmtLabels(c: Scope, s: Stmt, tag: nat)
    ensures WellLabelled(StmtCode(c, s, tag), tag)
    decreases s, 1
  {
    match s
    case Assignment(x, k, e) =>
      ExprLabels(c, e, tag);
      StorePlain(x, k);
      AppendPlain(ExprCode(c, e, tag), tag, StoreCode(x, k));
    case IfElse(_, _, _) => IfElseLabels(c, s, tag);
    case IfOnly(_, _) => IfOnlyLabels(c, s, tag);
    case Loop(_, _) => LoopLabels(c, s, tag);
    case ForTo(_, _, _, _, _) => ForLabels(c, s, tag);
    case Block(ss, _) => AllLabels(c, ss, tag);
    case Show(e) =>
      ExprLabels(c, e, tag);
      AppendPlain(ExprCode(c, e, tag), tag, DisplayCode(TyOf(c, e)));
    case CallStmt(f, args) =>
      ArgLabels(c, args, tag, 0, 0);
      CallPlain(c, f);
      AppendPlain(ArgsCode(c, args, tag, 0, 0), tag, if f in c.funcs then FinishCall(f, c.funcs[f].ret) else []);
  }

  lemma {:induction false} AllLabels(c: Scope, ss: seq<Stmt>, tag: nat)
    ensures WellLabelled(StmtsCode(c, ss, tag), tag)
    decreases ss, 0
  {
    if ss == [] {
      PlainFacts([]);
    } else {
      var f := StmtCode(c, ss[0], tag);
      StmtLabels(c, ss[0], tag);
      AllLabels(c, ss[1..], f.tag);
      InSequence(f, StmtsCode(c, ss[1..], f.tag), tag);
    }
  }

  lemma Single(i: Instr)
    ensures Defined([i]) == (if i.Def? then {i.l} else {}) && Targets([i]) == (if IsJump(i) then {i.l} else {})
    ensures UniqueLabels([i])
  {
    var code := [i];
    if i.Def? {
      assert code[0].l in Defined(code);
    } else if IsJump(i) {
      assert code[0].l in Targets(code);
    }
  }

  /** Part of a construct with tag `g`: besides the labels in `own`, of that tag, it defines only
      labels of nested constructs, and it jumps to its own labels and to those in `open`. */
  ghost predicate Piece(code: seq<Instr>, g: nat, lo: nat, hi: nat, own: set<Label>, open: set<Label>) {
    && g <= lo <= hi && UniqueLabels(code) && own <= Defined(code)
    && (forall l :: l in Defined(code) ==> l in own || lo < l.tag <= hi)
    && (forall l :: l in own ==> l.tag == g)
    && Targets(code) <= Defined(code) + open
  }

  lemma Glue(a: seq<Instr>, b: seq<Instr>, g: nat, lo: nat, mid: nat, hi: nat,
             own1: set<Label>, open1: set<Label>, own2: set<Label>, open2: set<Label>,
             own: set<Label>, open: set<Label>)
    requires Piece(a, g, lo, mid, own1, open1) && Piece(b, g, mid, hi, own2, open2) && own1 !! own2
    requires own == own1 + own2 && open == open1 + open2
    ensures Piece(a + b, g, lo, hi, own, open)
  {
    hide UniqueLabels;
    assert Defined(a) !! Defined(b);
    Concat(a, b);
  }

  lemma Nested(f: Frag, g: nat, lo: nat)
    requires WellLabelled(f, lo) && g <= lo <= f.tag
    ensures Piece(f.code, g, lo, f.tag, {}, {})
  {}

  lemma OwnLabel(l: Label, lo: nat)
    requires l.tag <= lo
    ensures Piece([Def(l)], l.tag, lo, lo, {l}, {})
  {
    Single(Def(l));
  }

  lemma OpenJump(l: Label, g: nat, lo: nat)
    requires g <= lo
    ensures Piece([Jmp(l)], g, lo, lo, {}, {l})
  {
    Single(Jmp(l));
  }

  lemma OpenBranch(l: Label, g: nat, lo: nat)
    requires g <= lo
    ensures Piece(Branch(l), g, lo, lo, {}, {l})
  {
    var code := Branch(l);
    assert code[2].l in Targets(code);
  }

  lemma OpenForTest(x: Name, l: Label, g: nat, lo: nat)
    requires g <= lo
    ensures Piece([PopReg(RAX), CmpVar(x), Jcc(L, l)], g, lo, lo, {}, {l})
  {
    var code := [PopReg(RAX), CmpVar(x), Jcc(L, l)];
    assert code[2].l in Targets(code);
  }

  lemma Complete(code: seq<Instr>, g: nat, hi: nat, own: set<Label>, open: set<Label>)
    requires g > 0 && Piece(code, g, g, hi, own, open) && open <= own
    ensures WellLabelled(Frag(code, hi), g - 1)
  {}

  lemma {:induction false} IfElseLabels(c: Scope, s: Stmt, tag: nat)
    requires s.IfElse?
    ensures WellLabelled(StmtCode(c, s, tag), tag)
    decreases s, 0
  {
    hide Piece, WellLabelled, Branch;
    var g := tag + 1;
    var fe := ExprCode(c, s.c, g);
    var ft := StmtCode(c, s.thn, fe.tag);
    var ff := StmtCode(c, s.els, ft.tag);
    ExprLabels(c, s.c, g);
    StmtLabels(c, s.thn, fe.tag);
    StmtLabels(c, s.els, ft.tag);
    Nested(fe, g, g);
    Nested(ft, g, fe.tag);
    Nested(ff, g, ft.tag);
    var t, f, n := LTrue(g), LFalse(g), LNext(g);
    var p1 := fe.code + Branch(f);
    OpenBranch(f, g, fe.tag);
    Glue(fe.code, Branch(f), g, g, fe.tag, fe.tag, {}, {}, {}, {f}, {}, {f});
    OwnLabel(t, fe.tag);
    Glue(p1, [Def(t)], g, g, fe.tag, fe.tag, {}, {f}, {t}, {}, {t}, {f});
    var p2 := p1 + [Def(t)] + ft.code;
    Glue(p1 + [Def(t)], ft.code, g, g, fe.tag, ft.tag, {t}, {f}, {}, {}, {t}, {f});
    OpenJump(n, g, ft.tag);
    OwnLabel(f, ft.tag);
    Glue([Jmp(n)], [Def(f)], g, ft.tag, ft.tag, ft.tag, {}, {n}, {f}, {}, {f}, {n});
    assert [Jmp(n)] + [Def(f)] == [Jmp(n), Def(f)];
    Glue(p2, [Jmp(n), Def(f)], g, g, ft.tag, ft.tag, {t}, {f}, {f}, {n}, {t, f}, {f, n});
    var p3 := p2 + [Jmp(n), Def(f)] + ff.code;
    Glue(p2 + [Jmp(n), Def(f)], ff.code, g, g, ft.tag, ff.tag, {t, f}, {f, n}, {}, {}, {t, f}, {f, n});
    OwnLabel(n, ff.tag);
    Glue(p3, [Def(n)], g, g, ff.tag, ff.tag, {t, f}, {f, n}, {n}, {}, {t, f, n}, {f, n});
    Complete(p3 + [Def(n)], g, ff.tag, {t, f, n}, {f, n});
  }

  lemma {:induction false} IfOnlyLabels(c: Scope, s: Stmt, tag: nat)
    requires s.IfOnly?
    ensures WellLabelled(StmtCode(c, s, tag), tag)
    decreases s, 0
  {
    hide Piece, WellLabelled, Branch;
    var g := tag + 1;
    var fe := ExprCode(c, s.c, g);
    var ft := StmtCode(c, s.thn, fe.tag);
    ExprLabels(c, s.c, g);
    StmtLabels(c, s.thn, fe.tag);
    Nested(fe, g, g);
    Nested(ft, g, fe.tag);
    var t, f, n := LTrue(g), LFalse(g), LNext(g);
    var p1 := fe.code + Branch(f);
    OpenBranch(f, g, fe.tag);
    Glue(fe.code, Branch(f), g, g, fe.tag, fe.tag, {}, {}, {}, {f}, {}, {f});
    OwnLabel(t, fe.tag);
    Glue(p1, [Def(t)], g, g, fe.tag, fe.tag, {}, {f}, {t}, {}, {t}, {f});
    var p2 := p1 + [Def(t)] + ft.code;
    Glue(p1 + [Def(t)], ft.code, g, g, fe.tag, ft.tag, {t}, {f}, {}, {}, {t}, {f});
    OwnLabel(f, ft.tag);
    OwnLabel(n, ft.tag);
    Glue([Def(f)], [Def(n)], g, ft.tag, ft.tag, ft.tag, {f}, {}, {n}, {}, {f, n}, {});
    assert [Def(f)] + [Def(n)] == [Def(f), Def(n)];
    Glue(p2, [Def(f), Def(n)], g, g, ft.tag, ft.tag, {t}, {f}, {f, n}, {}, {t, f, n}, {f});
    Complete(p2 + [Def(f), Def(n)], g, ft.tag, {t, f, n}, {f});
  }

  lemma {:induction false} LoopLabels(c: Scope, s: Stmt, tag: nat)
    requires s.Loop?
    ensures WellLabelled(StmtCode(c, s, tag), tag)
    decreases s, 0
  {
    hide Piece, WellLabelled, Branch;
    var g := tag + 1;
    var fe := ExprCode(c, s.c, g);
    var fb := StmtCode(c, s.body, fe.tag);
    ExprLabels(c, s.c, g);
    StmtLabels(c, s.body, fe.tag);
    Nested(fe, g, g);
    Nested(fb, g, fe.tag);
    var w, n := LWhile(g), LNext(g);
    OwnLabel(w, g);
    Glue([Def(w)], fe.code, g, g, g, fe.tag, {w}, {}, {}, {}, {w}, {});
    OpenBranch(n, g, fe.tag);
    Glue([Def(w)] + fe.code, Branch(n), g, g, fe.tag, fe.tag, {w}, {}, {}, {n}, {w}, {n});
    var p := [Def(w)] + fe.code + Branch(n) + fb.code;
    Glue([Def(w)] + fe.code + Branch(n), fb.code, g, g, fe.tag, fb.tag, {w}, {n}, {}, {}, {w}, {n});
    OpenJump(w, g, fb.tag);
    OwnLabel(n, fb.tag);
    Glue([Jmp(w)], [Def(n)], g, fb.tag, fb.tag, fb.tag, {}, {w}, {n}, {}, {n}, {w});
    assert [Jmp(w)] + [Def(n)] == [Jmp(w), Def(n)];
    Glue(p, [Jmp(w), Def(n)], g, g, fb.tag, fb.tag, {w}, {n}, {n}, {w}, {w, n}, {n, w});
    Complete(p + [Jmp(w), Def(n)], g, fb.tag, {w, n}, {n, w});
  }

  lemma ForEnd(x: Name, g: nat, lo: nat)
    requires g <= lo
    ensures Piece([IncVar(x), Jmp(LFor(g)), Def(LNext(g))], g, lo, lo, {LNext(g)}, {LFor(g)})
  {
    var code := [IncVar(x), Jmp(LFor(g)), Def(LNext(g))];
    assert code[1].l in Targets(code) && code[2].l in Defined(code);
  }

  /** The loop of a FOR, whose tag is drawn after the code of its assignment. */
  lemma {:induction false} ForLoopLabels(c: Scope, s: Stmt, g: nat)
    requires s.ForTo? && g > 0
    ensures var f1 := ExprCode(c, s.to, g);
      var fb := StmtCode(c, s.body, f1.tag);
      WellLabelled(Frag([Def(LFor(g))] + f1.code + [PopReg(RAX), CmpVar(s.x), Jcc(L, LNext(g))] + fb.code
                        + [IncVar(s.x), Jmp(LFor(g)), Def(LNext(g))], fb.tag), g - 1)
    decreases s.body, 2
  {
    hide Piece, WellLabelled;
    var f1 := ExprCode(c, s.to, g);
    var fb := StmtCode(c, s.body, f1.tag);
    ExprLabels(c, s.to, g);
    StmtLabels(c, s.body, f1.tag);
    Nested(f1, g, g);
    Nested(fb, g, f1.tag);
    var w, n := LFor(g), LNext(g);
    var t, e := [PopReg(RAX), CmpVar(s.x), Jcc(L, n)], [IncVar(s.x), Jmp(w), Def(n)];
    OwnLabel(w, g);
    Glue([Def(w)], f1.code, g, g, g, f1.tag, {w}, {}, {}, {}, {w}, {});
    OpenForTest(s.x, n, g, f1.tag);
    Glue([Def(w)] + f1.code, t, g, g, f1.tag, f1.tag, {w}, {}, {}, {n}, {w}, {n});
    var p := [Def(w)] + f1.code + t + fb.code;
    Glue([Def(w)] + f1.code + t, fb.code, g, g, f1.tag, fb.tag, {w}, {n}, {}, {}, {w}, {n});
    ForEnd(s.x, g, fb.tag);
    Glue(p, e, g, g, fb.tag, fb.tag, {w}, {n}, {n}, {w}, {w, n}, {n, w});
    Complete(p + e, g, fb.tag, {w, n}, {n, w});
  }

  lemma {:induction false} ForLabels(c: Scope, s: Stmt, tag: nat)
    requires s.ForTo?
    ensures WellLabelled(StmtCode(c, s, tag), tag)
    decreases s, 0
  {
    hide WellLabelled;
    var f0 := ExprCode(c, s.from, tag);
    var g := f0.tag + 1;
    var f1 := ExprCode(c, s.to, g);
    var fb := StmtCode(c, s.body, f1.tag);
    var st := StoreCode(s.x, s.carets);
    ExprLabels(c, s.from, tag);
    StorePlain(s.x, s.carets);
    AppendPlain(f0, tag, st);
    ForLoopLabels(c, s, g);
    var rest := [Def(LFor(g))] + f1.code + [PopReg(RAX), CmpVar(s.x), Jcc(L, LNext(g))] + fb.code
                + [IncVar(s.x), Jmp(LFor(g)), Def(LNext(g))];
    InSequence(Frag(f0.code + st, f0.tag), Frag(rest, fb.tag), tag);
    assert StmtCode(c, s, tag).code == f0.code + st + rest;
  }

  /** For every program, each label is defined exactly once and every jump target is defined. */
  lemma MainLabels(c: Scope, body: Stmt)
    ensures UniqueLabels(MainCode(c, body)) && Targets(MainCode(c, body)) <= Defined(MainCode(c, body))
  {
    var f := StmtCode(c, body, 0);
    StmtLabels(c, body, 0);
    PlainFacts([RspToRbp]);
    PlainFacts([RbpToRsp, Ret]);
    Concat([RspToRbp], f.code);
    Concat([RspToRbp] + f.code, [RbpToRsp, Ret]);
  }
}
