/**
 * What each visit prints, stated against small reference definitions written in
 * the vocabulary of three-address code: the jump shapes, the arithmetic folds,
 * the `||`/`&&` and `!` label plumbing, boolean materialisation and the
 * statement layouts.
 */
module Properties {
  import opened Wrappers
  import opened Names
  import opened Ast
  import opened Lowering
  import Soundness

  // ---- genCodeRelTestJump and the jump shapes ----

  /** The one-element list of a present label, or nothing. */
  function Present(l: Option<string>): seq<string>
  {
    if l.Some? then [l.value] else []
  }

  /**
   * `genCodeRelTestJump` prints one jump line per label it is given (two, one or
   * none) and changes nothing but the output.
   */
  lemma RelTestJumpCounts(s: St, labelTrue: Option<string>, labelFalse: Option<string>, seg: string)
    ensures var t := RelTestJump(s, labelTrue, labelFalse, seg);
      && t.id == s.id && t.labelNo == s.labelNo && t.table == s.table
      && t.jumps == s.jumps + Present(labelTrue) + Present(labelFalse)
      && s.out <= t.out && |t.out| == |s.out| + |Present(labelTrue)| + |Present(labelFalse)|
  {
  }

  /** The line ends in `goto target`. */
  predicate EndsInGoto(line: string, target: string)
  {
    |line| >= |target| + 5 && line[|line| - |target| - 5..] == "goto " + target
  }

  lemma GotoSuffix(p: string, target: string)
    ensures EndsInGoto(p + " goto " + target, target)
    ensures EndsInGoto("goto " + target, target)
  {
    var line := p + " goto " + target;
    assert line[|line| - |target| - 5..] == "goto " + target by {
      assert line == p + " " + ("goto " + target);
    }
  }

  /** The new lines of t over s are `lines` and its new jumps `targets`, and each line ends in a jump to its target. */
  predicate PrintedJumps(s: St, t: St)
  {
    && s.out <= t.out && s.jumps <= t.jumps
    && var lines, targets := t.out[|s.out|..], t.jumps[|s.jumps|..];
    && |lines| == |targets|
    && forall j :: 0 <= j < |targets| ==> EndsInGoto(lines[j], targets[j])
  }

  /** One jump line `p goto target`, with its target recorded. */
  lemma JumpPrinted(s: St, p: string, target: string)
    ensures PrintedJumps(s, Jump(s, p + " goto " + target, target))
  {
    var t := Jump(s, p + " goto " + target, target);
    GotoSuffix(p, target);
    assert t.out[|s.out|..] == [p + " goto " + target] && t.jumps[|s.jumps|..] == [target];
  }

  /** A `goto` prints one line ending in the jump to its target, and records that target. */
  lemma GotoPrinted(s: St, target: string)
    ensures PrintedJumps(s, Goto(s, target))
  {
    var t := Goto(s, target);
    GotoSuffix("", target);
    assert t.out[|s.out|..] == ["goto " + target] && t.jumps[|s.jumps|..] == [target];
  }

  /**
   * The record of jumps is the printed one: `genCodeRelTestJump` prints one line
   * per recorded target, and that line ends in `goto` followed by the target.
   * With GotoPrinted this covers every place a jump is recorded.
   */
  lemma RecordedJumpsArePrinted(s: St, labelTrue: Option<string>, labelFalse: Option<string>, seg: string)
    ensures PrintedJumps(s, RelTestJump(s, labelTrue, labelFalse, seg))
  {
    if labelTrue.Some? && labelFalse.Some? {
      var m := Jump(s, "if " + seg + " goto " + labelTrue.value, labelTrue.value);
      var t := Goto(m, labelFalse.value);
      JumpPrinted(s, "if " + seg, labelTrue.value);
      GotoPrinted(m, labelFalse.value);
      assert t.out[|s.out|..] == m.out[|s.out|..] + t.out[|m.out|..];
      assert t.jumps[|s.jumps|..] == m.jumps[|s.jumps|..] + t.jumps[|m.jumps|..];
    } else if labelTrue.Some? {
      JumpPrinted(s, "if" + seg, labelTrue.value);
    } else if labelFalse.Some? {
      JumpPrinted(s, "if" + seg, labelFalse.value);
    } else {
      assert RelTestJump(s, labelTrue, labelFalse, seg).out[|s.out|..] == [];
    }
  }

  /** The test printed for a condition against the targets t and f, in three-address form. */
  function TestLines(t: string, f: string, cond: string): seq<string>
  {
    if t != Fall && f != Fall then ["if " + cond + " goto " + t, "goto " + f]
    else if t != Fall then ["if " + cond + " goto " + t]
    else if f != Fall then ["ifFalse " + cond + " goto " + f]
    else ["error"]
  }

  /** The targets among t and f that are not `fall`, in that order. */
  function RealTargets(t: string, f: string): (r: seq<string>)
    ensures Fall !in r
  {
    (if t != Fall then [t] else []) + (if f != Fall then [f] else [])
  }

  lemma Concat3(a: string, b: string, c: string)
    ensures a + (b + c) == a + b + c
  {
  }

  /**
   * The shape choice of CompExpr and Identifier prints exactly the three-address
   * test for its targets, jumps only to the real ones, and prints `error`
   * exactly when both targets are `fall`.
   */
  lemma SelectJumpLines(s: St, t: string, f: string, cond: string)
    ensures SelectJump(s, t, f, cond) == s.(out := s.out + TestLines(t, f, cond), jumps := s.jumps + RealTargets(t, f))
    ensures TestLines(t, f, cond) == ["error"] <==> t == Fall && f == Fall
  {
    if t != Fall && f == Fall {
      Concat3("if", " ", cond);
      assert ("if" + " ") == "if ";
      assert TestLines(t, f, cond)[0][0] == 'i';
    } else if t == Fall && f != Fall {
      Concat3("if", "False ", cond);
      assert ("if" + "False ") == "ifFalse ";
      assert TestLines(t, f, cond)[0][0] == 'i';
    }
  }

  /** BoolValue prints at most one `goto`, to the target its value selects, and never to `fall`. */
  lemma BoolValueLines(n: Node, d: Data, s: St)
    requires n.BoolValue?
    ensures VisitBoolValue(n, d, s).Ok? <==>
      d.Some? && (if n.b then d.value.lTrue else d.value.lFalse).Some?
    ensures VisitBoolValue(n, d, s).Ok? ==>
      var target := (if n.b then d.value.lTrue else d.value.lFalse).value;
      var r := VisitBoolValue(n, d, s).value;
      && r.addr.None?
      && r.st == s.(out := s.out + (if target != Fall then ["goto " + target] else []),
                   jumps := s.jumps + (if target != Fall then [target] else []))
  {
  }

  /** A comparison whose targets are both `fall` prints exactly `error` and evaluates no operand. */
  lemma CompBothFall(n: Node, d: Data, s: St)
    requires n.CompExpr? && n.op.Some? && |n.operands| > 0
    requires LeftmostValue(n.operands[0]).Ok? && NumberComparison(LeftmostValue(n.operands[0]).value, s.table).Ok?
    requires d.Some? && d.value.lTrue == Some(Fall) && d.value.lFalse == Some(Fall)
    ensures VisitComp(n, d, s) == Ok(Step(None, s.(out := s.out + ["error"])))
  {
  }

  /** A numeric comparison tests the two operands' addresses with the operator, in the shape its targets select. */
  lemma NumericComparisonLines(n: Node, d: Data, s: St)
    requires n.CompExpr? && n.op.Some? && |n.operands| >= 2 && VisitComp(n, d, s).Ok?
    requires NumberComparison(LeftmostValue(n.operands[0]).value, s.table) == Ok(true)
    ensures var t, f := d.value.lTrue.value, d.value.lFalse.value;
      var e1 := Visit(n.operands[0], d, s);
      (t != Fall || f != Fall) ==>
        && e1.Ok?
        && var e2 := Visit(n.operands[1], d, e1.value.st);
        && e2.Ok?
        && VisitComp(n, d, s).value.st.out ==
             e2.value.st.out + TestLines(t, f, Text(e1.value.addr) + " " + n.op.value + " " + Text(e2.value.addr))
  {
    var t, f := d.value.lTrue.value, d.value.lFalse.value;
    if t != Fall || f != Fall {
      var e1 := Visit(n.operands[0], d, s).value;
      var e2 := Visit(n.operands[1], d, e1.st).value;
      var cond := Text(e1.addr) + " " + n.op.value + " " + Text(e2.addr);
      assert VisitComp(n, d, s).value.st == SelectJump(e2.st, t, f, cond);
      SelectJumpLines(e2.st, t, f, cond);
    }
  }

  /**
   * A Bool identifier used as a condition prints its test `x == 1` in the shape
   * its targets select; a Number identifier is its own address and prints nothing.
   */
  lemma IdentifierLines(n: Node, d: Data, s: St)
    requires n.Identifier?
    ensures VisitIdentifier(n, d, s) == Stuck(Undeclared(n.name)) <==> n.name !in s.table
    ensures n.name in s.table && s.table[n.name] == Number ==> VisitIdentifier(n, d, s) == Ok(Step(Some(n.name), s))
    ensures n.name in s.table && s.table[n.name] == Bool && VisitIdentifier(n, d, s).Ok? ==>
      VisitIdentifier(n, d, s).value.st.out ==
        s.out + TestLines(d.value.lTrue.value, d.value.lFalse.value, n.name + " == 1")
  {
    if n.name in s.table && s.table[n.name] == Bool && VisitIdentifier(n, d, s).Ok? {
      SelectJumpLines(s, d.value.lTrue.value, d.value.lFalse.value, n.name + " == 1");
    }
  }

  /** A comparison is numeric exactly when its leftmost leaf is an integer literal or a Number variable. */
  lemma NumberComparisonMeans(leaf: Node, table: map<string, VarType>)
    ensures NumberComparison(leaf, table) == Ok(true) <==>
      leaf.IntValue? || (leaf.Identifier? && leaf.name in table && table[leaf.name] == Number)
    ensures NumberComparison(leaf, table).Stuck? <==> leaf.Identifier? && leaf.name !in table
  {
  }

  // ---- declarations ----

  /**
   * After its declaration a variable is known: a `bool` one is a condition, any
   * other one is an operand whose address is its name.
   */
  lemma DeclarationThenUse(typeName: string, x: string, d: Data, s: St)
    ensures var t := Visit(Declaration(typeName, x), d, s).value.st;
      && t.out == s.out && t.jumps == s.jumps && t.table.Keys == s.table.Keys + {x}
      && (typeName != "bool" ==> Visit(Identifier(x), d, t) == Ok(Step(Some(x), t)))
      && (typeName == "bool" ==> VisitIdentifier(Identifier(x), d, t) != Stuck(Undeclared(x)))
  {
    var t := Visit(Declaration(typeName, x), d, s).value.st;
    assert t.table == s.table[x := if typeName == "bool" then Bool else Number];
  }

  // ---- exprCodeGen and UnaExpr ----

  /** Operands whose visit prints nothing and yields a name: literals and Number variables. */
  predicate Leaf(n: Node, table: map<string, VarType>)
  {
    n.IntValue? || (n.Identifier? && n.name in table && table[n.name] == Number)
  }

  /** Every node of ns is a leaf. */
  predicate Leaves(ns: seq<Node>, table: map<string, VarType>)
  {
    forall j :: 0 <= j < |ns| ==> Leaf(ns[j], table)
  }

  /** The address of a leaf operand. */
  function LeafAddr(n: Node): string
  {
    if n.IntValue? then IntToString(n.v) else if n.Identifier? then n.name else ""
  }

  /** The addresses of a run of leaf operands. */
  function LeafAddrs(ns: seq<Node>): seq<string>
  {
    seq(|ns|, j requires 0 <= j < |ns| => LeafAddr(ns[j]))
  }

  lemma VisitLeaf(n: Node, d: Data, s: St)
    requires Leaf(n, s.table)
    ensures Visit(n, d, s) == Ok(Step(Some(LeafAddr(n)), s))
  {
  }

  /**
   * The lines of a left fold of operators over operand addresses: line j puts
   * `prev ops[j] args[j]` in the temporary numbered id0 + j, where prev is acc
   * for the first line and the previous line's temporary after that.
   */
  function FoldLines(ops: seq<string>, args: seq<string>, id0: nat, acc: Option<string>): seq<string>
    requires |args| == |ops|
  {
    seq(|ops|, j requires 0 <= j < |ops| =>
      BinaryLine(TempName(id0 + j), if j == 0 then acc else Some(TempName(id0 + j - 1)), ops[j], Some(args[j])))
  }

  lemma FoldLinesStep(ops: seq<string>, args: seq<string>, id0: nat, acc: Option<string>)
    requires |args| == |ops| > 0
    ensures FoldLines(ops, args, id0, acc) ==
      [BinaryLine(TempName(id0), acc, ops[0], Some(args[0]))] + FoldLines(ops[1..], args[1..], id0 + 1, Some(TempName(id0)))
  {
    var a := FoldLines(ops, args, id0, acc);
    var b := FoldLines(ops[1..], args[1..], id0 + 1, Some(TempName(id0)));
    forall j | 1 <= j < |a| ensures a[j] == b[j - 1] {
      assert id0 + 1 + (j - 1) == id0 + j;
    }
  }

  /** The address a left fold over ops yields: its last temporary, or acc when ops is empty. */
  function FoldAddr(ops: seq<string>, id0: nat, acc: Option<string>): Option<string>
  {
    if |ops| == 0 then acc else Some(TempName(id0 + |ops| - 1))
  }

  /** The state after a left fold over ops: one temporary and one FoldLines line per operator. */
  function FoldState(s: St, ops: seq<string>, args: seq<string>, acc: Option<string>): St
    requires |args| == |ops|
  {
    s.(id := s.id + |ops|, out := s.out + FoldLines(ops, args, s.id, acc))
  }

  /** The first fold line followed by the rest of the fold is the whole fold. */
  lemma FoldStep(s: St, ops: seq<string>, args: seq<string>, acc: Option<string>)
    requires |args| == |ops| > 0
    ensures var t := TempName(s.id);
      var s1 := Emit(s.(id := s.id + 1), BinaryLine(t, acc, ops[0], Some(args[0])));
      && FoldAddr(ops[1..], s1.id, Some(t)) == FoldAddr(ops, s.id, acc)
      && FoldState(s1, ops[1..], args[1..], Some(t)) == FoldState(s, ops, args, acc)
  {
    FoldLinesStep(ops, args, s.id, acc);
    var t := TempName(s.id);
    var line := BinaryLine(t, acc, ops[0], Some(args[0]));
    assert s.out + [line] + FoldLines(ops[1..], args[1..], s.id + 1, Some(t)) == s.out + FoldLines(ops, args, s.id, acc);
  }

  /** One round of the exprCodeGen loop over a leaf operand. */
  lemma ExprFoldLeafStep(n: Node, i: nat, acc: Option<string>, d: Data, s: St)
    requires (n.AddExpr? || n.MulExpr?) && i < |n.ops| && i + 1 < |n.operands| && Leaf(n.operands[i + 1], s.table)
    ensures var t := TempName(s.id);
      ExprFold(n, i, acc, d, s) ==
        ExprFold(n, i + 1, Some(t), d, Emit(s.(id := s.id + 1), BinaryLine(t, acc, n.ops[i], Some(LeafAddr(n.operands[i + 1])))))
  {
    VisitLeaf(n.operands[i + 1], d, s);
  }

  /**
   * Over leaf operands, the fold from operator i on prints exactly the FoldLines
   * of the remaining operators over the remaining operands' addresses, takes one
   * fresh temporary per operator and yields the last one (or acc when no
   * operator is left).
   */
  lemma {:induction false} ExprFoldLeaves(n: Node, i: nat, acc: Option<string>, d: Data, s: St)
    requires (n.AddExpr? || n.MulExpr?) && i <= |n.ops| && |n.operands| == |n.ops| + 1
    requires Leaves(n.operands[i + 1..], s.table)
    ensures ExprFold(n, i, acc, d, s) ==
      Ok(Step(FoldAddr(n.ops[i..], s.id, acc), FoldState(s, n.ops[i..], LeafAddrs(n.operands[i + 1..]), acc)))
    decreases |n.ops| - i
  {
    var ops, args := n.ops[i..], LeafAddrs(n.operands[i + 1..]);
    if i < |n.ops| {
      var t := TempName(s.id);
      var s1 := Emit(s.(id := s.id + 1), BinaryLine(t, acc, ops[0], Some(args[0])));
      assert ops[0] == n.ops[i] && args[0] == LeafAddr(n.operands[i + 1]) && Leaf(n.operands[i + 1], s.table) by {
        assert n.operands[i + 1..][0] == n.operands[i + 1];
      }
      ExprFoldLeafStep(n, i, acc, d, s);
      assert n.operands[i + 2..] == n.operands[i + 1..][1..];
      assert n.ops[i + 1..] == ops[1..];
      assert LeafAddrs(n.operands[i + 2..]) == args[1..];
      ExprFoldLeaves(n, i + 1, Some(t), d, s1);
      FoldStep(s, ops, args, acc);
    } else {
      assert FoldLines(ops, args, s.id, acc) == [];
      assert s.out + [] == s.out;
    }
  }

  /** exprCodeGen over leaf operands: k operators, k lines, k fresh temporaries; none for k = 0. */
  lemma ExprCodeGenLeaves(n: Node, d: Data, s: St)
    requires (n.AddExpr? || n.MulExpr?) && |n.operands| == |n.ops| + 1
    requires Leaves(n.operands, s.table)
    ensures var first := Some(LeafAddr(n.operands[0]));
      ExprCodeGen(n, d, s) == Ok(Step(FoldAddr(n.ops, s.id, first), FoldState(s, n.ops, LeafAddrs(n.operands[1..]), first)))
  {
    VisitLeaf(n.operands[0], d, s);
    assert n.operands[1..] == n.operands[0 + 1..];
    assert n.ops[0..] == n.ops;
    ExprFoldLeaves(n, 0, Some(LeafAddr(n.operands[0])), d, s);
  }

  /** With no operator exprCodeGen is its operand's visit, unchanged. */
  lemma ExprCodeGenNoOps(n: Node, d: Data, s: St)
    requires (n.AddExpr? || n.MulExpr?) && |n.ops| == 0 && |n.operands| > 0
    ensures ExprCodeGen(n, d, s) == Visit(n.operands[0], d, s)
  {
  }

  /**
   * Over any operands, the fold yields the temporary it allocated last and
   * allocates at least one per operator.
   */
  lemma {:induction false} ExprFoldResult(n: Node, i: nat, acc: Option<string>, d: Data, s: St)
    requires (n.AddExpr? || n.MulExpr?) && i <= |n.ops| && ExprFold(n, i, acc, d, s).Ok?
    ensures var r := ExprFold(n, i, acc, d, s).value;
      && (i == |n.ops| ==> r == Step(acc, s))
      && (i < |n.ops| ==> r.st.id >= s.id + |n.ops| - i && r.addr == Some(TempName(r.st.id - 1)))
    decreases |n.ops| - i
  {
    if i < |n.ops| {
      var e2 := Visit(n.operands[i + 1], d, s).value;
      var t := TempName(e2.st.id);
      var s1 := Emit(e2.st.(id := e2.st.id + 1), BinaryLine(t, acc, n.ops[i], e2.addr));
      assert ExprFold(n, i, acc, d, s) == ExprFold(n, i + 1, Some(t), d, s1);
      Soundness.VisitSound(n.operands[i + 1], d, s);
      ExprFoldResult(n, i + 1, Some(t), d, s1);
    }
  }

  /** The lines of the UnaExpr loop: line j puts `ops[j] prev` in the temporary numbered id0 + j. */
  function UnaLines(ops: seq<string>, id0: nat, acc: Option<string>): seq<string>
  {
    seq(|ops|, j requires 0 <= j < |ops| =>
      TempName(id0 + j) + " = " + ops[j] + " " + Text(if j == 0 then acc else Some(TempName(id0 + j - 1))))
  }

  lemma UnaLinesStep(ops: seq<string>, id0: nat, acc: Option<string>)
    requires |ops| > 0
    ensures UnaLines(ops, id0, acc) ==
      [TempName(id0) + " = " + ops[0] + " " + Text(acc)] + UnaLines(ops[1..], id0 + 1, Some(TempName(id0)))
  {
    var a := UnaLines(ops, id0, acc);
    var b := UnaLines(ops[1..], id0 + 1, Some(TempName(id0)));
    forall j | 1 <= j < |a| ensures a[j] == b[j - 1] {
      assert id0 + 1 + (j - 1) == id0 + j;
    }
  }

  /**
   * The UnaExpr loop from operator i on prints UnaLines, one fresh temporary per
   * operator, and yields the last (or acc when no operator is left).
   */
  lemma {:induction false} UnaFoldClosed(ops: seq<string>, i: nat, acc: Option<string>, s: St)
    requires i <= |ops|
    ensures UnaFold(ops, i, acc, s) ==
      Step(if i == |ops| then acc else Some(TempName(s.id + |ops| - i - 1)),
           s.(id := s.id + |ops| - i, out := s.out + UnaLines(ops[i..], s.id, acc)))
    decreases |ops| - i
  {
    if i < |ops| {
      var t := TempName(s.id);
      var s1 := Emit(s.(id := s.id + 1), t + " = " + ops[i] + " " + Text(acc));
      UnaFoldClosed(ops, i + 1, Some(t), s1);
      UnaLinesStep(ops[i..], s.id, acc);
      assert ops[i..][1..] == ops[i + 1..];
    }
  }

  /** UnaExpr: its operand's code, then the UnaLines of its operators over the operand's address. */
  lemma UnaLayout(n: Node, d: Data, s: St)
    requires n.UnaExpr? && VisitUna(n, d, s).Ok?
    ensures var e1 := Visit(n.inner, d, s).value;
      VisitUna(n, d, s).value ==
        Step(if |n.ops| == 0 then e1.addr else Some(TempName(e1.st.id + |n.ops| - 1)),
             e1.st.(id := e1.st.id + |n.ops|, out := e1.st.out + UnaLines(n.ops, e1.st.id, e1.addr)))
  {
    var e1 := Visit(n.inner, d, s).value;
    UnaFoldClosed(n.ops, 0, e1.addr, e1.st);
    assert n.ops[0..] == n.ops;
  }
}
