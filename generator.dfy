/**
 * The visitor itself: an object whose fields are the two name counters, the
 * symbol table and the lines printed so far. Every method is proved to leave
 * the object in the state the matching function of Lowering computes, and to
 * return the address that function gives.
 */
module Generator {
  import opened Wrappers
  import opened Names
  import opened Ast
  import L = Lowering

  class CodeGenerator {
    var id: nat
    var labelNo: nat
    var symbolTable: map<string, VarType>
    /** The lines printed on the writer, in order. */
    var output: seq<string>
    /** The target of every jump printed, in order; kept for the proofs only. */
    ghost var jumps: seq<string>

    ghost function State(): L.St
      reads this
    {
      L.St(id, labelNo, symbolTable, output, jumps)
    }

    constructor ()
      ensures State() == L.St(0, 0, map[], [], [])
    {
      id, labelNo, symbolTable, output := 0, 0, map[], [];
      jumps := [];
    }

    /** A fresh temporary `_t<id>`. */
    method GenId() returns (t: string)
      modifies this
      ensures t == TempName(old(id))
      ensures State() == old(State()).(id := old(id) + 1)
    {
      t := TempName(id);
      id := id + 1;
    }

    /** A fresh label `_L<label>`. */
    method GenLabel() returns (l: string)
      modifies this
      ensures l == LabelName(old(labelNo))
      ensures State() == old(State()).(labelNo := old(labelNo) + 1)
    {
      l := LabelName(labelNo);
      labelNo := labelNo + 1;
    }

    method Println(line: string)
      modifies this
      ensures State() == L.Emit(old(State()), line)
    {
      output := output + [line];
    }

    /** Print a line that jumps to `target`. */
    method PrintJump(line: string, target: string)
      modifies this
      ensures State() == L.Jump(old(State()), line, target)
    {
      output := output + [line];
      jumps := jumps + [target];
    }

    method GenCodeRelTestJump(labelTrue: Option<string>, labelFalse: Option<string>, seg: string)
      modifies this
      ensures State() == L.RelTestJump(old(State()), labelTrue, labelFalse, seg)
    {
      if labelTrue.Some? && labelFalse.Some? {
        PrintJump("if " + seg + " goto " + labelTrue.value, labelTrue.value);
        PrintJump("goto " + labelFalse.value, labelFalse.value);
      } else if labelTrue.Some? {
        PrintJump("if" + seg + " goto " + labelTrue.value, labelTrue.value);
      } else if labelFalse.Some? {
        PrintJump("if" + seg + " goto " + labelFalse.value, labelFalse.value);
      }
    }

    /** `jjtAccept`: the visit for the node's kind. */
    method Visit(n: Node, d: L.Data) returns (r: Option<string>)
      requires L.Visit(n, d, State()).Ok?
      modifies this
      ensures L.Visit(n, d, old(State())) == L.Ok(L.Step(r, State()))
      decreases n, 3
    {
      match n
      case Program(_) => r := VisitChildren(n, d);
      case Declaration(_, _) => r := VisitDeclaration(n);
      case Block(_) => r := VisitChildren(n, d);
      case Stmt(_) => r := VisitChildren(n, d);
      case IfStmt(_, _, _) => r := VisitIf(n, d);
      case WhileStmt(_, _) => r := VisitWhile(n);
      case AssignStmt(_, _) => r := VisitAssign(n, d);
      case Expr(e) => r := Visit(e, d);
      case AddExpr(_, _) => r := ExprCodeGen(n, d);
      case MulExpr(_, _) => r := ExprCodeGen(n, d);
      case UnaExpr(_, _) => r := VisitUna(n, d);
      case BoolExpr(_, _) => r := VisitBoolExpr(n, d);
      case CompExpr(_, _) => r := VisitComp(n, d);
      case NotExpr(_, _) => r := VisitNot(n, d);
      case GenValue(e) => r := Visit(e, d);
      case BoolValue(_) => r := VisitBoolValue(n, d);
      case Identifier(_) => r := VisitIdentifier(n, d);
      case IntValue(v) => r := Some(IntToString(v));
      case SwitchStmt(_, _) => r := VisitSwitch(n, d);
      case CaseStmt(_, _) => r := VisitCase(n, d);
      case DefaultStmt(_) => r := VisitChildren(n, d);
    }

    method VisitChildren(n: Node, d: L.Data) returns (r: Option<string>)
      requires VisitsKids(n) && L.VisitChildren(n, d, State()).Ok?
      modifies this
      ensures L.VisitChildren(n, d, old(State())) == L.Ok(L.Step(r, State()))
      decreases n, 2
    {
      ChildrenAccept(n, d);
      r := None;
    }

    method ChildrenAccept(n: Node, d: L.Data)
      requires VisitsKids(n) && L.ChildrenAccept(n, 0, d, State()).Ok?
      modifies this
      ensures L.ChildrenAccept(n, 0, d, old(State())) == L.Ok(State())
      decreases n, 1
    {
      var i := 0;
      while i < |n.kids|
        invariant 0 <= i <= |n.kids|
        invariant L.ChildrenAccept(n, i, d, State()) == L.ChildrenAccept(n, 0, d, old(State()))
      {
        var _ := Visit(n.kids[i], d);
        i := i + 1;
      }
    }

    method VisitDeclaration(n: Node) returns (r: Option<string>)
      requires n.Declaration?
      modifies this
      ensures L.VisitDeclaration(n, old(State())) == L.Ok(L.Step(r, State()))
    {
      var t := if n.typeName == "bool" then Bool else Number;
      symbolTable := symbolTable[n.name := t];
      r := None;
    }

    method VisitIf(n: Node, d: L.Data) returns (r: Option<string>)
      requires n.IfStmt? && L.VisitIf(n, d, State()).Ok?
      modifies this
      ensures L.VisitIf(n, d, old(State())) == L.Ok(L.Step(r, State()))
      decreases n, 2
    {
      if n.elseBranch.None? {
        var sNext := GenLabel();
        var bLabel := NewBoolLabel(Some(Fall), Some(sNext));
        var _ := Visit(n.cond, Some(bLabel));
        bLabel := bLabel.(next := Some(sNext));
        var _ := Visit(n.thenBranch, Some(bLabel));
        Println(sNext);
      } else {
        var lFalse := GenLabel();
        var bLabel := NewBoolLabel(Some(Fall), Some(lFalse));
        var sNext := GenLabel();
        var _ := Visit(n.cond, Some(bLabel));
        bLabel := bLabel.(next := Some(sNext));
        var _ := Visit(n.thenBranch, Some(bLabel));
        PrintJump("goto " + sNext, sNext);
        Println(bLabel.lFalse.value);
        var _ := Visit(n.elseBranch.value, Some(bLabel));
        Println(sNext);
      }
      r := None;
    }

    method VisitWhile(n: Node) returns (r: Option<string>)
      requires n.WhileStmt? && L.VisitWhile(n, State()).Ok?
      modifies this
      ensures L.VisitWhile(n, old(State())) == L.Ok(L.Step(r, State()))
      decreases n, 2
    {
      var begin := GenLabel();
      var sNext := GenLabel();
      var bLabel := NewBoolLabel(Some(Fall), Some(sNext));
      bLabel := bLabel.(next := Some(begin));
      Println(begin);
      var _ := Visit(n.cond, Some(bLabel));
      var _ := Visit(n.body, Some(bLabel));
      PrintJump("goto " + begin, begin);
      Println(sNext);
      r := None;
    }

    method VisitAssign(n: Node, d: L.Data) returns (r: Option<string>)
      requires n.AssignStmt? && L.VisitAssign(n, d, State()).Ok?
      modifies this
      ensures L.VisitAssign(n, d, old(State())) == L.Ok(L.Step(r, State()))
      decreases n, 2
    {
      if symbolTable[n.name] == Number {
        var v := Visit(n.value, d);
        Println(n.name + " = " + L.Text(v));
      } else {
        var _ := AssignBooleanCodeGen(n.value, n.name, d);
      }
      r := None;
    }

    method AssignBooleanCodeGen(b: Node, x: string, d: L.Data) returns (r: Option<string>)
      requires L.AssignBooleanCodeGen(b, x, d, State()).Ok?
      modifies this
      ensures L.AssignBooleanCodeGen(b, x, d, old(State())) == L.Ok(L.Step(r, State()))
      decreases b, 4
    {
      ghost var s0 := State();
      var lFalse := GenLabel();
      var bLabel := NewBoolLabel(Some(Fall), Some(lFalse));
      var inherited: Option<string> := None;
      if d.Some? {
        inherited := d.value.next;
      }
      var sNext;
      if inherited.None? {
        sNext := GenLabel();
      } else {
        sNext := inherited.value;
      }
      ghost var c := L.Visit(b, Some(CopyBoolLabel(Some(bLabel))), State());
      assert L.AssignBooleanCodeGen(b, x, d, s0) == L.Ok(L.Step(Some(x), L.Emit(L.Emit(L.Emit(L.Goto(L.Emit(c.value.st, x + " = 1"), sNext), lFalse), x + " = 0"), sNext)));
      var _ := Visit(b, Some(CopyBoolLabel(Some(bLabel))));
      assert State() == c.value.st;
      Println(x + " = 1");
      PrintJump("goto " + sNext, sNext);
      Println(bLabel.lFalse.value);
      Println(x + " = 0");
      Println(sNext);
      r := Some(x);
    }

    method ExprCodeGen(n: Node, d: L.Data) returns (r: Option<string>)
      requires (n.AddExpr? || n.MulExpr?) && L.ExprCodeGen(n, d, State()).Ok?
      modifies this
      ensures L.ExprCodeGen(n, d, old(State())) == L.Ok(L.Step(r, State()))
      decreases n, 2
    {
      var e1 := Visit(n.operands[0], d);
      var i := 0;
      while i < |n.ops|
        invariant 0 <= i <= |n.ops|
        invariant L.ExprFold(n, i, e1, d, State()) == L.ExprCodeGen(n, d, old(State()))
      {
        var t := ExprRound(n, i, e1, d);
        e1 := Some(t);
        i := i + 1;
      }
      r := e1;
    }

    /** One round of the exprCodeGen loop: the next operand, a fresh temporary, and its line. */
    method ExprRound(n: Node, i: nat, acc: Option<string>, d: L.Data) returns (t: string)
      requires (n.AddExpr? || n.MulExpr?) && i < |n.ops| && L.ExprFold(n, i, acc, d, State()).Ok?
      modifies this
      ensures L.ExprFold(n, i, acc, d, old(State())) == L.ExprFold(n, i + 1, Some(t), d, State())
      decreases n, 1
    {
      var e2 := Visit(n.operands[i + 1], d);
      t := GenId();
      Println(L.BinaryLine(t, acc, n.ops[i], e2));
    }

    method VisitUna(n: Node, d: L.Data) returns (r: Option<string>)
      requires n.UnaExpr? && L.VisitUna(n, d, State()).Ok?
      modifies this
      ensures L.VisitUna(n, d, old(State())) == L.Ok(L.Step(r, State()))
      decreases n, 2
    {
      var e1 := Visit(n.inner, d);
      ghost var s1 := State();
      ghost var a1 := e1;
      var i := 0;
      while i < |n.ops|
        invariant 0 <= i <= |n.ops|
        invariant L.UnaFold(n.ops, i, e1, State()) == L.UnaFold(n.ops, 0, a1, s1)
      {
        var t := GenId();
        Println(t + " = " + n.ops[i] + " " + L.Text(e1));
        e1 := Some(t);
        i := i + 1;
      }
      r := e1;
    }

    method VisitBoolExpr(n: Node, d: L.Data) returns (r: Option<string>)
      requires n.BoolExpr? && L.VisitBoolExpr(n, d, State()).Ok?
      modifies this
      ensures L.VisitBoolExpr(n, d, old(State())) == L.Ok(L.Step(r, State()))
      decreases n, 2
    {
      if |n.ops| == 0 {
        r := Visit(n.operands[0], Some(CopyBoolLabel(d)));
        return;
      }
      var bLabel := d.value;
      var i := |n.ops|;
      while i > 0
        invariant 0 <= i <= |n.ops|
        invariant L.BoolLoop(n, i, bLabel, State()) == L.VisitBoolExpr(n, d, old(State()))
      {
        if n.ops[i - 1] == "||" {
          var b1;
          if bLabel.lTrue.value == Fall {
            var l := GenLabel();
            b1 := NewBoolLabel(Some(l), Some(Fall));
          } else {
            b1 := NewBoolLabel(bLabel.lTrue, Some(Fall));
          }
          var b2 := CopyBoolLabel(Some(bLabel));
          var _ := Visit(n.operands[i - 1], Some(CopyBoolLabel(Some(b1))));
          var _ := Visit(n.operands[i], Some(CopyBoolLabel(Some(b2))));
          if bLabel.lTrue.value == Fall {
            Println(b1.lTrue.value);
          }
        } else {
          var b1;
          if bLabel.lFalse.value == Fall {
            var l := GenLabel();
            b1 := NewBoolLabel(Some(Fall), Some(l));
          } else {
            b1 := NewBoolLabel(Some(Fall), bLabel.lFalse);
          }
          var b2 := CopyBoolLabel(Some(bLabel));
          var _ := Visit(n.operands[i - 1], Some(CopyBoolLabel(Some(b1))));
          var _ := Visit(n.operands[i], Some(CopyBoolLabel(Some(b2))));
          if bLabel.lFalse.value == Fall {
            Println(b1.lFalse.value);
          }
        }
        i := i - 1;
      }
      r := None;
    }

    /** The `while` of the CompExpr visit: down the first children to a GenValue, then under it. */
    method LeftmostValue(start: Node) returns (leaf: Node)
      requires L.LeftmostValue(start).Ok?
      ensures L.LeftmostValue(start) == L.Ok(leaf)
    {
      var child := start;
      while !child.GenValue?
        invariant L.LeftmostValue(child) == L.LeftmostValue(start)
        decreases child
      {
        child := FirstChild(child).value;
      }
      leaf := child.inner;
    }

    /**
     * The test of a condition against the targets t and f, in the shape they
     * select: both real, only the true one, only the false one (inverted), or
     * neither, which prints `error`.
     */
    method SelectJump(t: string, f: string, cond: string)
      modifies this
      ensures State() == L.SelectJump(old(State()), t, f, cond)
    {
      if t != Fall && f != Fall {
        GenCodeRelTestJump(Some(t), Some(f), cond);
      } else if t != Fall {
        GenCodeRelTestJump(Some(t), None, " " + cond);
      } else if f != Fall {
        GenCodeRelTestJump(None, Some(f), "False " + cond);
      } else {
        Println("error");
      }
    }

    /** Whether a comparison is numeric, judged from its leftmost leaf: a Number variable or an integer literal. */
    method NumberComparison(leaf: Node) returns (numeric: bool)
      requires L.NumberComparison(leaf, symbolTable).Ok?
      ensures L.NumberComparison(leaf, symbolTable) == L.Ok(numeric)
    {
      if leaf.Identifier? {
        numeric := symbolTable[leaf.name] == Number;
      } else if leaf.IntValue? {
        numeric := true;
      } else {
        numeric := false;
      }
    }

    method VisitComp(n: Node, d: L.Data) returns (r: Option<string>)
      requires n.CompExpr? && L.VisitComp(n, d, State()).Ok?
      modifies this
      ensures L.VisitComp(n, d, old(State())) == L.Ok(L.Step(r, State()))
      decreases n, 2
    {
      ghost var s0 := State();
      if n.op.None? {
        r := Visit(n.operands[0], d);
        return;
      }
      var child := LeftmostValue(n.operands[0]);
      var numeric := NumberComparison(child);
      var t, f := d.value.lTrue.value, d.value.lFalse.value;
      if t == Fall && f == Fall {
        Println("error");
      } else {
        var e1, e2;
        if numeric {
          e1 := Visit(n.operands[0], d);
          e2 := Visit(n.operands[1], d);
        } else {
          var t1 := GenId();
          e1 := AssignBooleanCodeGen(n.operands[0], t1, d);
          var t2 := GenId();
          e2 := AssignBooleanCodeGen(n.operands[1], t2, d);
        }
        var cond := L.Text(e1) + " " + n.op.value + " " + L.Text(e2);
        assert L.VisitComp(n, d, s0) == L.Ok(L.Step(None, L.SelectJump(State(), t, f, cond)));
        SelectJump(t, f, cond);
      }
      r := None;
    }

    method VisitNot(n: Node, d: L.Data) returns (r: Option<string>)
      requires n.NotExpr? && L.VisitNot(n, d, State()).Ok?
      modifies this
      ensures L.VisitNot(n, d, old(State())) == L.Ok(L.Step(r, State()))
      decreases n, 2
    {
      if |n.ops| == 0 {
        r := Visit(n.inner, d);
        return;
      }
      var bLabel := d.value;
      var i := 0;
      while i < |n.ops|
        invariant 0 <= i <= |n.ops|
        invariant L.NotLoop(n, i, bLabel, State()) == L.VisitNot(n, d, old(State()))
      {
        var b1 := NewBoolLabel(bLabel.lFalse, bLabel.lTrue);
        var _ := Visit(n.inner, Some(b1));
        bLabel := CopyBoolLabel(Some(b1));
        i := i + 1;
      }
      r := None;
    }

    method VisitBoolValue(n: Node, d: L.Data) returns (r: Option<string>)
      requires n.BoolValue? && L.VisitBoolValue(n, d, State()).Ok?
      modifies this
      ensures L.VisitBoolValue(n, d, old(State())) == L.Ok(L.Step(r, State()))
    {
      if n.b {
        if d.value.lTrue.value != Fall {
          PrintJump("goto " + d.value.lTrue.value, d.value.lTrue.value);
        }
      } else {
        if d.value.lFalse.value != Fall {
          PrintJump("goto " + d.value.lFalse.value, d.value.lFalse.value);
        }
      }
      r := None;
    }

    method VisitIdentifier(n: Node, d: L.Data) returns (r: Option<string>)
      requires n.Identifier? && L.VisitIdentifier(n, d, State()).Ok?
      modifies this
      ensures L.VisitIdentifier(n, d, old(State())) == L.Ok(L.Step(r, State()))
    {
      if symbolTable[n.name] == Number {
        return Some(n.name);
      }
      var t, f := d.value.lTrue.value, d.value.lFalse.value;
      SelectJump(t, f, n.name + " == 1");
      r := None;
    }

    method VisitSwitch(n: Node, d: L.Data) returns (r: Option<string>)
      requires n.SwitchStmt? && L.VisitSwitch(n, d, State()).Ok?
      modifies this
      ensures L.VisitSwitch(n, d, old(State())) == L.Ok(L.Step(r, State()))
      decreases n, 2
    {
      var temp := Visit(n.selector, d);
      var test := GenLabel();
      var next := GenLabel();
      PrintJump("goto " + test, test);
      var labels, addrs := SwitchCases(n, d, next);
      Println(test);
      SwitchTests(L.Text(temp), labels, addrs);
      Println(next);
      r := None;
    }

    /** The first loop of the switch visit: each case under a fresh label, then a jump to the exit. */
    method SwitchCases(n: Node, d: L.Data, next: string) returns (labels: seq<string>, addrs: seq<Option<string>>)
      requires n.SwitchStmt? && L.SwitchCases(n, 0, d, next, [], [], State()).Ok?
      modifies this
      ensures L.SwitchCases(n, 0, d, next, [], [], old(State())) == L.Ok(L.Cases(labels, addrs, State()))
      decreases n, 1
    {
      labels, addrs := [], [];
      var i := 0;
      while i < |n.kids|
        invariant 0 <= i <= |n.kids| && |labels| == |addrs|
        invariant L.SwitchCases(n, i, d, next, labels, addrs, State()) == L.SwitchCases(n, 0, d, next, [], [], old(State()))
      {
        var l := GenLabel();
        labels := labels + [l];
        Println(l);
        var a := Visit(n.kids[i], d);
        addrs := addrs + [a];
        PrintJump("goto " + next, next);
        i := i + 1;
      }
    }

    /** The second loop of the switch visit: the test table, in case order. */
    method SwitchTests(temp: string, labels: seq<string>, addrs: seq<Option<string>>)
      requires |labels| == |addrs|
      modifies this
      ensures State() == L.SwitchTests(temp, labels, addrs, 0, old(State()))
    {
      var k := 0;
      while k < |labels|
        invariant 0 <= k <= |labels|
        invariant L.SwitchTests(temp, labels, addrs, k, State()) == L.SwitchTests(temp, labels, addrs, 0, old(State()))
      {
        if addrs[k].None? {
          PrintJump("goto " + labels[k], labels[k]);
        } else {
          GenCodeRelTestJump(Some(labels[k]), None, " " + temp + " == " + addrs[k].value);
        }
        k := k + 1;
      }
    }

    method VisitCase(n: Node, d: L.Data) returns (r: Option<string>)
      requires n.CaseStmt? && L.VisitCase(n, d, State()).Ok?
      modifies this
      ensures L.VisitCase(n, d, old(State())) == L.Ok(L.Step(r, State()))
      decreases n, 2
    {
      var _ := Visit(n.body, d);
      r := Visit(n.value, d);
    }
  }
}
