/** Which operators bind tighter, for chains of any length and with every operator written out. */
module Precedence {
  import opened Syntax
  import opened Grammar
  import opened RoundTrip

  /** Factors with operators between them, as they are written. */
  function Text(fs: seq<Expr>, ops: seq<BinOp>): seq<Token>
    requires |fs| == |ops| + 1
    decreases |ops|
  {
    if ops == [] then Print(fs[0]) else Print(fs[0]) + [Binary(ops[0])] + Text(fs[1..], ops[1..])
  }

  /** Where a chain splits: at its last `+`, `-` or `||`, and at its last operator if it has none. */
  ghost predicate SplitsAt(ops: seq<BinOp>, i: nat) {
    && i < |ops|
    && (forall j :: i < j < |ops| ==> ops[j] == OpMul || ops[j] == OpDiv || ops[j] == OpMod || ops[j] == OpAnd)
    && (ops[i] == OpAdd || ops[i] == OpSub || ops[i] == OpOr ||
        (i == |ops| - 1 && forall j :: 0 <= j < |ops| ==> ops[j] != OpAdd && ops[j] != OpSub && ops[j] != OpOr))
  }

  /** The tree of a chain: the operator it splits at is applied last. */
  ghost predicate Groups(fs: seq<Expr>, ops: seq<BinOp>, e: Expr)
    requires |fs| == |ops| + 1
    decreases |ops|
  {
    if ops == [] then e == fs[0]
    else
      exists i :: 0 <= i < |ops| && SplitsAt(ops, i) && e.Bin? && e.op == ops[i]
        && Groups(fs[..i + 1], ops[..i], e.l) && Groups(fs[i + 1..], ops[i + 1..], e.r)
  }

  lemma {:induction false} TextSplits(fs: seq<Expr>, ops: seq<BinOp>, i: nat)
    requires |fs| == |ops| + 1 && i < |ops|
    ensures Text(fs, ops) == Text(fs[..i + 1], ops[..i]) + [Binary(ops[i])] + Text(fs[i + 1..], ops[i + 1..])
    decreases i
  {
    hide Print;
    if i == 0 {
      assert Text(fs[..1], ops[..0]) == Print(fs[0]);
    } else {
      TextSplits(fs[1..], ops[1..], i - 1);
      assert fs[1..][..i] == fs[..i + 1][1..] && ops[1..][..i - 1] == ops[..i][1..];
      assert fs[1..][i..] == fs[i + 1..] && ops[1..][i..] == ops[i + 1..];
      assert Text(fs[..i + 1], ops[..i]) == Print(fs[0]) + [Binary(ops[0])] + Text(fs[1..][..i], ops[1..][..i - 1]);
      Regroup4(Print(fs[0]) + [Binary(ops[0])], Text(fs[1..][..i], ops[1..][..i - 1]), [Binary(ops[i])],
               Text(fs[i + 1..], ops[i + 1..]));
    }
  }

  lemma Regroup4(a: seq<Token>, b: seq<Token>, c: seq<Token>, d: seq<Token>)
    ensures a + (b + c + d) == a + b + c + d
  {}

  /** The tree of a chain of factors is one that prints as it is written. */
  lemma {:induction false} GroupsFit(fs: seq<Expr>, ops: seq<BinOp>, e: Expr)
    requires |fs| == |ops| + 1 && (forall i :: 0 <= i < |fs| ==> Fits(fs[i], 1)) && Groups(fs, ops, e)
    ensures Print(e) == Text(fs, ops) && Fits(e, 3)
    ensures ops == [] ==> Fits(e, 1)
    ensures (forall j :: 0 <= j < |ops| ==> ops[j] != OpAdd && ops[j] != OpSub && ops[j] != OpOr) ==> Fits(e, 2)
    decreases |ops|
  {
    hide Print, Fits, Text, Groups;
    if ops == [] {
      assert e == fs[0] by {
        OneGroup(fs, e);
      }
      HigherFits(fs[0]);
      OneFactor(fs);
    } else {
      var i := SplitOf(fs, ops, e);
      GroupsFit(fs[..i + 1], ops[..i], e.l);
      GroupsFit(fs[i + 1..], ops[i + 1..], e.r);
      TextSplits(fs, ops, i);
      JoinFits(ops, i, e);
    }
  }

  lemma OneGroup(fs: seq<Expr>, e: Expr)
    requires |fs| == 1 && Groups(fs, [], e)
    ensures e == fs[0]
  {}

  lemma SplitOf(fs: seq<Expr>, ops: seq<BinOp>, e: Expr) returns (i: nat)
    requires |fs| == |ops| + 1 && ops != [] && Groups(fs, ops, e)
    ensures SplitsAt(ops, i) && e.Bin? && e.op == ops[i]
    ensures Groups(fs[..i + 1], ops[..i], e.l) && Groups(fs[i + 1..], ops[i + 1..], e.r)
  {
    i :| 0 <= i < |ops| && SplitsAt(ops, i) && e.Bin? && e.op == ops[i]
      && Groups(fs[..i + 1], ops[..i], e.l) && Groups(fs[i + 1..], ops[i + 1..], e.r);
  }

  lemma OneFactor(fs: seq<Expr>)
    requires |fs| == 1
    ensures Text(fs, []) == Print(fs[0])
  {}

  /** An operator over a chain in front of its last additive operator and what is behind it. */
  lemma JoinFits(ops: seq<BinOp>, i: nat, e: Expr)
    requires SplitsAt(ops, i) && e.Bin? && e.op == ops[i] && Fits(e.l, 3)
    requires (forall j :: 0 <= j < i ==> ops[j] != OpAdd && ops[j] != OpSub && ops[j] != OpOr) ==> Fits(e.l, 2)
    requires Fits(e.r, 2) && (i + 1 == |ops| ==> Fits(e.r, 1))
    ensures Print(e) == Print(e.l) + [Binary(e.op)] + Print(e.r) && Fits(e, 3)
    ensures (forall j :: 0 <= j < |ops| ==> ops[j] != OpAdd && ops[j] != OpSub && ops[j] != OpOr) ==> Fits(e, 2)
  {}

  /** A chain of factors of any length parses to the tree that groups `*`, `/`, `%` and `&&` before `+`,
      `-` and `||`, and otherwise from the left. */
  lemma ChainParses(fs: seq<Expr>, ops: seq<BinOp>, e: Expr, rest: seq<Token>)
    requires |fs| == |ops| + 1 && (forall i :: 0 <= i < |fs| ==> Fits(fs[i], 1)) && Groups(fs, ops, e)
    requires var t := Peek(rest); !t.Binary? && !t.Relational? && t != Caret && t != LParen
    ensures ParseExpr(Text(fs, ops) + rest) == Got(e, rest)
  {
    hide Groups, Text, Print, ParseExpr;
    GroupsFit(fs, ops, e);
    ExprComplete(e, rest);
  }

  /** Three factors with any two operators. */
  lemma TwoOperators(a: Expr, op1: BinOp, b: Expr, op2: BinOp, c: Expr, rest: seq<Token>)
    requires Fits(a, 1) && Fits(b, 1) && Fits(c, 1)
    requires var t := Peek(rest); !t.Binary? && !t.Relational? && t != Caret && t != LParen
    ensures ParseExpr(Print(a) + [Binary(op1)] + Print(b) + [Binary(op2)] + Print(c) + rest) == Got(
      if (op1 == OpAdd || op1 == OpSub || op1 == OpOr)
         && (op2 == OpMul || op2 == OpDiv || op2 == OpMod || op2 == OpAnd)
      then Bin(op1, a, Bin(op2, b, c))
      else Bin(op2, Bin(op1, a, b), c), rest)
  {
    hide Print, ParseExpr, Fits;
    PrintBin(a, op1, b, op2, c);
    FitsBin(a, op1, b, op2, c);
    if (op1 == OpAdd || op1 == OpSub || op1 == OpOr) && (op2 == OpMul || op2 == OpDiv || op2 == OpMod || op2 == OpAnd) {
      ExprComplete(Bin(op1, a, Bin(op2, b, c)), rest);
    } else {
      ExprComplete(Bin(op2, Bin(op1, a, b), c), rest);
    }
  }

  lemma PrintBin(a: Expr, op1: BinOp, b: Expr, op2: BinOp, c: Expr)
    ensures Print(Bin(op1, a, Bin(op2, b, c))) == Print(a) + [Binary(op1)] + Print(b) + [Binary(op2)] + Print(c)
    ensures Print(Bin(op2, Bin(op1, a, b), c)) == Print(a) + [Binary(op1)] + Print(b) + [Binary(op2)] + Print(c)
  {}

  lemma FitsBin(a: Expr, op1: BinOp, b: Expr, op2: BinOp, c: Expr)
    requires Fits(a, 1) && Fits(b, 1) && Fits(c, 1)
    ensures if (op1 == OpAdd || op1 == OpSub || op1 == OpOr)
               && (op2 == OpMul || op2 == OpDiv || op2 == OpMod || op2 == OpAnd)
            then Fits(Bin(op1, a, Bin(op2, b, c)), 4)
            else Fits(Bin(op2, Bin(op1, a, b), c), 4)
  {
    HigherFits(a);
    HigherFits(b);
    HigherFits(c);
  }

  lemma HigherFits(a: Expr)
    requires Fits(a, 1)
    ensures Fits(a, 2) && Fits(a, 3) && Fits(a, 4)
  {}

  lemma Splits(ops: seq<BinOp>) returns (i: nat)
    requires ops != []
    ensures SplitsAt(ops, i)
  {
    i := |ops| - 1;
    while i > 0 && ops[i] != OpAdd && ops[i] != OpSub && ops[i] != OpOr
      invariant i < |ops|
      invariant forall j :: i < j < |ops| ==> ops[j] != OpAdd && ops[j] != OpSub && ops[j] != OpOr
    {
      i := i - 1;
    }
    if ops[i] != OpAdd && ops[i] != OpSub && ops[i] != OpOr {
      i := |ops| - 1;
    }
  }

  /** Every chain groups. */
  lemma {:induction false} ChainGroups(fs: seq<Expr>, ops: seq<BinOp>) returns (e: Expr)
    requires |fs| == |ops| + 1
    ensures Groups(fs, ops, e)
    decreases |ops|
  {
    if ops == [] {
      e := fs[0];
    } else {
      var i := Splits(ops);
      var l := ChainGroups(fs[..i + 1], ops[..i]);
      var r := ChainGroups(fs[i + 1..], ops[i + 1..]);
      e := Bin(ops[i], l, r);
    }
  }

  /** A comparison binds loosest of all: each side is a whole chain. A second comparison is not taken in,
      so it is left in front of the rest. */
  lemma ComparisonLoosest(fs: seq<Expr>, ops: seq<BinOp>, l: Expr, rel: RelOp, gs: seq<Expr>, ops': seq<BinOp>,
                          r: Expr, rest: seq<Token>)
    requires |fs| == |ops| + 1 && (forall i :: 0 <= i < |fs| ==> Fits(fs[i], 1)) && Groups(fs, ops, l)
    requires |gs| == |ops'| + 1 && (forall i :: 0 <= i < |gs| ==> Fits(gs[i], 1)) && Groups(gs, ops', r)
    requires var t := Peek(rest); !t.Binary? && t != Caret && t != LParen
    ensures ParseExpr(Text(fs, ops) + ([Relational(rel)] + (Text(gs, ops') + rest))) == Got(Rel(rel, l, r), rest)
  {
    hide Groups, Text, Print, ParseSimple, ParseExpr, Fits, SimpleLoop;
    GroupsFit(fs, ops, l);
    GroupsFit(gs, ops', r);
    var behind := [Relational(rel)] + (Text(gs, ops') + rest);
    SimpleComplete(l, behind);
    SimpleStop(l, behind);
    SimpleComplete(r, rest);
    SimpleStop(r, rest);
    Compared(Text(fs, ops) + behind, l, rel, Text(gs, ops') + rest, r, rest);
  }

  lemma Compared(ts: seq<Token>, l: Expr, rel: RelOp, us: seq<Token>, r: Expr, rest: seq<Token>)
    requires ParseSimple(ts) == Got(l, [Relational(rel)] + us) && ParseSimple(us) == Got(r, rest)
    ensures ParseExpr(ts) == Got(Rel(rel, l, r), rest)
  {
    hide ParseSimple;
    assert ([Relational(rel)] + us)[1..] == us;
  }
}
