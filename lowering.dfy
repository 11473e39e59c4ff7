/**
 * Reference definitions of the intermediate code generator, one function per
 * visit. A function takes the node, the label record the Java code receives as
 * `data` (None for null) and the generator state, and gives the state after the
 * visit together with the address the visit returns (None for null), or Stuck
 * where the Java code throws.
 */
module Lowering {
  import opened Wrappers
  import opened Names
  import opened Ast

  /** Why a visit cannot complete (the Java code throws). */
  datatype Fault =
    | Undeclared(name: string)   // SymbolTable.get gives null and `.equals` is called on it
    | NullLabel                  // a null label record or a null target is dereferenced
    | Malformed                  // a child the visit asks for does not exist

  datatype Outcome<+T> = Ok(value: T) | Stuck(fault: Fault) {
    predicate IsFailure() { Stuck? }
    function PropagateFailure<U>(): Outcome<U> requires Stuck? { Stuck(fault) }
    function Extract(): T requires Ok? { value }
  }

  /**
   * The generator's state: the two counters, the symbol table, the lines printed
   * so far and, as a record kept beside them, the target of every jump printed,
   * in printing order.
   */
  datatype St = St(id: nat, labelNo: nat, table: map<string, VarType>, out: seq<string>, jumps: seq<string>)

  /** The result of a visit: the returned address (null as None) and the new state. */
  datatype Step = Step(addr: Option<string>, st: St)

  /** The two lists the switch visit collects, and the state after its cases. */
  datatype Cases = Cases(labels: seq<string>, addrs: seq<Option<string>>, st: St)

  type Data = Option<BoolLabel>

  /** Counters never go back, lines and jumps are only appended, no declaration is forgotten. */
  ghost predicate Grows(s: St, t: St)
  {
    && s.id <= t.id
    && s.labelNo <= t.labelNo
    && s.out <= t.out
    && s.jumps <= t.jumps
    && s.table.Keys <= t.table.Keys
  }

  /** Print one line. */
  function Emit(s: St, line: string): St
  {
    s.(out := s.out + [line])
  }

  /** Print a jump line that ends in `goto target`, and record the target. */
  function Jump(s: St, line: string, target: string): St
  {
    s.(out := s.out + [line], jumps := s.jumps + [target])
  }

  /** Print the unconditional jump `goto target`. */
  function Goto(s: St, target: string): St
  {
    Jump(s, "goto " + target, target)
  }

  /** Java's string concatenation of a possibly null String. */
  function Text(a: Option<string>): string
  {
    if a.Some? then a.value else "null"
  }

  /** The line `t = a op b` of a binary operation. */
  function BinaryLine(t: string, a: Option<string>, op: string, b: Option<string>): string
  {
    t + " = " + Text(a) + " " + op + " " + Text(b)
  }

  /** `genCodeRelTestJump`: the jump lines for a test `seg`, given the targets that are not null. */
  function RelTestJump(s: St, labelTrue: Option<string>, labelFalse: Option<string>, seg: string): (t: St)
  {
    if labelTrue.Some? && labelFalse.Some? then
      Goto(Jump(s, "if " + seg + " goto " + labelTrue.value, labelTrue.value), labelFalse.value)
    else if labelTrue.Some? then
      Jump(s, "if" + seg + " goto " + labelTrue.value, labelTrue.value)
    else if labelFalse.Some? then
      Jump(s, "if" + seg + " goto " + labelFalse.value, labelFalse.value)
    else
      s
  }

  /**
   * The shape choice CompExpr and Identifier make for a test `cond` against the
   * targets t and f: both real, only the true one, only the false one (inverted
   * test), or neither, which prints `error`.
   */
  function SelectJump(s: St, t: string, f: string, cond: string): (r: St)
  {
    if t != Fall && f != Fall then RelTestJump(s, Some(t), Some(f), cond)
    else if t != Fall then RelTestJump(s, Some(t), None, " " + cond)
    else if f != Fall then RelTestJump(s, None, Some(f), "False " + cond)
    else Emit(s, "error")
  }

  /** The dispatch of `jjtAccept` on every node kind. */
  function Visit(n: Node, d: Data, s: St): (o: Outcome<Step>)
    decreases n, 3
  {
    match n
    case Program(_) => VisitChildren(n, d, s)
    case Declaration(_, _) => VisitDeclaration(n, s)
    case Block(_) => VisitChildren(n, d, s)
    case Stmt(_) => VisitChildren(n, d, s)
    case IfStmt(_, _, _) => VisitIf(n, d, s)
    case WhileStmt(_, _) => VisitWhile(n, s)
    case AssignStmt(_, _) => VisitAssign(n, d, s)
    case Expr(e) => Visit(e, d, s)
    case AddExpr(_, _) => ExprCodeGen(n, d, s)
    case MulExpr(_, _) => ExprCodeGen(n, d, s)
    case UnaExpr(_, _) => VisitUna(n, d, s)
    case BoolExpr(_, _) => VisitBoolExpr(n, d, s)
    case CompExpr(_, _) => VisitComp(n, d, s)
    case NotExpr(_, _) => VisitNot(n, d, s)
    case GenValue(e) => Visit(e, d, s)
    case BoolValue(_) => VisitBoolValue(n, d, s)
    case Identifier(_) => VisitIdentifier(n, d, s)
    case IntValue(v) => Ok(Step(Some(IntToString(v)), s))
    case SwitchStmt(_, _) => VisitSwitch(n, d, s)
    case CaseStmt(_, _) => VisitCase(n, d, s)
    case DefaultStmt(_) => VisitChildren(n, d, s)
  }

  /** Program, Block, Stmt and Default: `childrenAccept`, then null. */
  function VisitChildren(n: Node, d: Data, s: St): (o: Outcome<Step>)
    requires VisitsKids(n)
    decreases n, 2
  {
    var t :- ChildrenAccept(n, 0, d, s);
    Ok(Step(None, t))
  }

  /** `childrenAccept` from child i on: every child visited with the same data. */
  function ChildrenAccept(n: Node, i: nat, d: Data, s: St): (o: Outcome<St>)
    requires VisitsKids(n) && i <= |n.kids|
    decreases n, 1, |n.kids| - i
  {
    if i == |n.kids| then Ok(s)
    else
      var c :- Visit(n.kids[i], d, s);
      ChildrenAccept(n, i + 1, d, c.st)
  }

  /** A declaration records the type of its identifier: `bool` or else Number. */
  function VisitDeclaration(n: Node, s: St): (o: Outcome<Step>)
    requires n.Declaration?
  {
    Ok(Step(None, s.(table := s.table[n.name := if n.typeName == "bool" then Bool else Number])))
  }

  /** If-then and if-then-else. */
  function VisitIf(n: Node, d: Data, s: St): (o: Outcome<Step>)
    requires n.IfStmt?
    decreases n, 2
  {
    if n.elseBranch.None? then
      var sNext := LabelName(s.labelNo);
      var bLabel := NewBoolLabel(Some(Fall), Some(sNext));
      var c :- Visit(n.cond, Some(bLabel), s.(labelNo := s.labelNo + 1));
      var t :- Visit(n.thenBranch, Some(bLabel.(next := Some(sNext))), c.st);
      Ok(Step(None, Emit(t.st, sNext)))
    else
      var bLabel := NewBoolLabel(Some(Fall), Some(LabelName(s.labelNo)));
      var sNext := LabelName(s.labelNo + 1);
      var c :- Visit(n.cond, Some(bLabel), s.(labelNo := s.labelNo + 2));
      var t :- Visit(n.thenBranch, Some(bLabel.(next := Some(sNext))), c.st);
      var s1 := Emit(Goto(t.st, sNext), bLabel.lFalse.value);
      var e :- Visit(n.elseBranch.value, Some(bLabel.(next := Some(sNext))), s1);
      Ok(Step(None, Emit(e.st, sNext)))
  }

  /** While: `begin` placed before the condition, `goto begin` and the exit label after the body. */
  function VisitWhile(n: Node, s: St): (o: Outcome<Step>)
    requires n.WhileStmt?
    decreases n, 2
  {
    var begin := LabelName(s.labelNo);
    var sNext := LabelName(s.labelNo + 1);
    var bLabel := NewBoolLabel(Some(Fall), Some(sNext)).(next := Some(begin));
    var s1 := Emit(s.(labelNo := s.labelNo + 2), begin);
    var c :- Visit(n.cond, Some(bLabel), s1);
    var b :- Visit(n.body, Some(bLabel), c.st);
    Ok(Step(None, Emit(Goto(b.st, begin), sNext)))
  }

  /** Assignment: by the declared type of the destination. */
  function VisitAssign(n: Node, d: Data, s: St): (o: Outcome<Step>)
    requires n.AssignStmt?
    decreases n, 2
  {
    if n.name !in s.table then Stuck(Undeclared(n.name))
    else if s.table[n.name] == Number then
      var v :- Visit(n.value, d, s);
      Ok(Step(None, Emit(v.st, n.name + " = " + Text(v.addr))))
    else
      var a :- AssignBooleanCodeGen(n.value, n.name, d, s);
      Ok(Step(None, a.st))
  }

  /**
   * `assignBooleanCodeGen`: compile b as jumping code that falls through when
   * true and jumps to a fresh label when false, then set x to 1 or 0 and meet
   * at the inherited continuation or, without one, at a second fresh label.
   */
  function AssignBooleanCodeGen(b: Node, x: string, d: Data, s: St): (o: Outcome<Step>)
    decreases b, 4
  {
    var bLabel := NewBoolLabel(Some(Fall), Some(LabelName(s.labelNo)));
    var s1 := s.(labelNo := s.labelNo + 1);
    var inherited := if d.Some? then d.value.next else None;
    var sNext := if inherited.Some? then inherited.value else LabelName(s1.labelNo);
    var s2 := if inherited.Some? then s1 else s1.(labelNo := s1.labelNo + 1);
    var c :- Visit(b, Some(CopyBoolLabel(Some(bLabel))), s2);
    var s3 := Goto(Emit(c.st, x + " = 1"), sNext);
    Ok(Step(Some(x), Emit(Emit(Emit(s3, bLabel.lFalse.value), x + " = 0"), sNext)))
  }

  /** `exprCodeGen` for AddExpr and MulExpr: a left fold over the operators. */
  function ExprCodeGen(n: Node, d: Data, s: St): (o: Outcome<Step>)
    requires n.AddExpr? || n.MulExpr?
    decreases n, 2
  {
    if |n.operands| == 0 then Stuck(Malformed)
    else
      var e1 :- Visit(n.operands[0], d, s);
      ExprFold(n, 0, e1.addr, d, e1.st)
  }

  /** The loop of `exprCodeGen` from operator i on, with acc the address so far. */
  function ExprFold(n: Node, i: nat, acc: Option<string>, d: Data, s: St): (o: Outcome<Step>)
    requires (n.AddExpr? || n.MulExpr?) && i <= |n.ops|
    decreases n, 1, |n.ops| - i
  {
    if i == |n.ops| then Ok(Step(acc, s))
    else if i + 1 >= |n.operands| then Stuck(Malformed)
    else
      var e2 :- Visit(n.operands[i + 1], d, s);
      var t := TempName(e2.st.id);
      var s1 := Emit(e2.st.(id := e2.st.id + 1), BinaryLine(t, acc, n.ops[i], e2.addr));
      ExprFold(n, i + 1, Some(t), d, s1)
  }

  /** UnaExpr: the operand, then one fresh temporary per prefix operator. */
  function VisitUna(n: Node, d: Data, s: St): (o: Outcome<Step>)
    requires n.UnaExpr?
    decreases n, 2
  {
    var e1 :- Visit(n.inner, d, s);
    Ok(UnaFold(n.ops, 0, e1.addr, e1.st))
  }

  /** The loop of the UnaExpr visit from operator i on. */
  function UnaFold(ops: seq<string>, i: nat, acc: Option<string>, s: St): (r: Step)
    requires i <= |ops|
    decreases |ops| - i
  {
    if i == |ops| then Step(acc, s)
    else
      var t := TempName(s.id);
      UnaFold(ops, i + 1, Some(t), Emit(s.(id := s.id + 1), t + " = " + ops[i] + " " + Text(acc)))
  }

  /** BoolExpr: `||` and `&&` with equal precedence, operators taken from the last one back. */
  function VisitBoolExpr(n: Node, d: Data, s: St): (o: Outcome<Step>)
    requires n.BoolExpr?
    decreases n, 2
  {
    if |n.ops| == 0 then
      if |n.operands| == 0 then Stuck(Malformed)
      else Visit(n.operands[0], Some(CopyBoolLabel(d)), s)
    else if d.None? then Stuck(NullLabel)
    else BoolLoop(n, |n.ops|, d.value, s)
  }

  /**
   * The loop of the BoolExpr visit for i = |ops| down to 1. The inherited record
   * bLabel is the same in every iteration, as in the source.
   */
  function BoolLoop(n: Node, i: nat, bLabel: BoolLabel, s: St): (o: Outcome<Step>)
    requires n.BoolExpr? && i <= |n.ops|
    decreases n, 1, i
  {
    if i == 0 then Ok(Step(None, s))
    else if n.ops[i - 1] == "||" then
      if bLabel.lTrue.None? then Stuck(NullLabel)
      else if i >= |n.operands| then Stuck(Malformed)
      else
        var allocate := bLabel.lTrue.value == Fall;
        var b1 := if allocate then NewBoolLabel(Some(LabelName(s.labelNo)), Some(Fall))
                  else NewBoolLabel(bLabel.lTrue, Some(Fall));
        var s1 := if allocate then s.(labelNo := s.labelNo + 1) else s;
        var b2 := CopyBoolLabel(Some(bLabel));
        var left :- Visit(n.operands[i - 1], Some(CopyBoolLabel(Some(b1))), s1);
        var right :- Visit(n.operands[i], Some(CopyBoolLabel(Some(b2))), left.st);
        BoolLoop(n, i - 1, bLabel, if allocate then Emit(right.st, b1.lTrue.value) else right.st)
    else
      if bLabel.lFalse.None? then Stuck(NullLabel)
      else if i >= |n.operands| then Stuck(Malformed)
      else
        var allocate := bLabel.lFalse.value == Fall;
        var b1 := if allocate then NewBoolLabel(Some(Fall), Some(LabelName(s.labelNo)))
                  else NewBoolLabel(Some(Fall), bLabel.lFalse);
        var s1 := if allocate then s.(labelNo := s.labelNo + 1) else s;
        var b2 := CopyBoolLabel(Some(bLabel));
        var left :- Visit(n.operands[i - 1], Some(CopyBoolLabel(Some(b1))), s1);
        var right :- Visit(n.operands[i], Some(CopyBoolLabel(Some(b2))), left.st);
        BoolLoop(n, i - 1, bLabel, if allocate then Emit(right.st, b1.lFalse.value) else right.st)
  }

  /** The node under the first GenValue on the leftmost path from n (the `while` of CompExpr). */
  function LeftmostValue(n: Node): (o: Outcome<Node>)
    decreases n
  {
    if n.GenValue? then Ok(n.inner)
    else match FirstChild(n)
      case None => Stuck(Malformed)
      case Some(c) => LeftmostValue(c)
  }

  /** Whether a comparison is numeric, judged from its leftmost leaf. */
  function NumberComparison(leaf: Node, table: map<string, VarType>): (o: Outcome<bool>)
  {
    if leaf.Identifier? then
      if leaf.name !in table then Stuck(Undeclared(leaf.name)) else Ok(table[leaf.name] == Number)
    else Ok(leaf.IntValue?)
  }

  /** CompExpr: forwarding without an operator, numeric or boolean comparison with one. */
  function VisitComp(n: Node, d: Data, s: St): (o: Outcome<Step>)
    requires n.CompExpr?
    decreases n, 2
  {
    if n.op.None? then
      if |n.operands| == 0 then Stuck(Malformed) else Visit(n.operands[0], d, s)
    else if |n.operands| == 0 then Stuck(Malformed)
    else
      var leaf :- LeftmostValue(n.operands[0]);
      var numeric :- NumberComparison(leaf, s.table);
      if d.None? || d.value.lTrue.None? || d.value.lFalse.None? then Stuck(NullLabel)
      else
        var t, f := d.value.lTrue.value, d.value.lFalse.value;
        if t == Fall && f == Fall then Ok(Step(None, Emit(s, "error")))
        else if |n.operands| < 2 then Stuck(Malformed)
        else if numeric then
          var e1 :- Visit(n.operands[0], d, s);
          var e2 :- Visit(n.operands[1], d, e1.st);
          Ok(Step(None, SelectJump(e2.st, t, f, Text(e1.addr) + " " + n.op.value + " " + Text(e2.addr))))
        else
          var a1 :- AssignBooleanCodeGen(n.operands[0], TempName(s.id), d, s.(id := s.id + 1));
          var a2 :- AssignBooleanCodeGen(n.operands[1], TempName(a1.st.id), d, a1.st.(id := a1.st.id + 1));
          Ok(Step(None, SelectJump(a2.st, t, f, Text(a1.addr) + " " + n.op.value + " " + Text(a2.addr))))
  }

  /** NotExpr: the operand once per `!`, each time with the previous record's targets swapped. */
  function VisitNot(n: Node, d: Data, s: St): (o: Outcome<Step>)
    requires n.NotExpr?
    decreases n, 2
  {
    if |n.ops| == 0 then Visit(n.inner, d, s)
    else if d.None? then Stuck(NullLabel)
    else NotLoop(n, 0, d.value, s)
  }

  /** The loop of the NotExpr visit from operator i on. */
  function NotLoop(n: Node, i: nat, bLabel: BoolLabel, s: St): (o: Outcome<Step>)
    requires n.NotExpr? && i <= |n.ops|
    decreases n, 1, |n.ops| - i
  {
    if i == |n.ops| then Ok(Step(None, s))
    else
      var b1 := NewBoolLabel(bLabel.lFalse, bLabel.lTrue);
      var c :- Visit(n.inner, Some(b1), s);
      NotLoop(n, i + 1, CopyBoolLabel(Some(b1)), c.st)
  }

  /** BoolValue: one direct jump to the target its value selects, unless that target is `fall`. */
  function VisitBoolValue(n: Node, d: Data, s: St): (o: Outcome<Step>)
    requires n.BoolValue?
  {
    if d.None? then Stuck(NullLabel)
    else
      var target := if n.b then d.value.lTrue else d.value.lFalse;
      if target.None? then Stuck(NullLabel)
      else if target.value != Fall then Ok(Step(None, Goto(s, target.value)))
      else Ok(Step(None, s))
  }

  /** Identifier: its name when it is a Number, else a test `name == 1` against the targets. */
  function VisitIdentifier(n: Node, d: Data, s: St): (o: Outcome<Step>)
    requires n.Identifier?
  {
    if n.name !in s.table then Stuck(Undeclared(n.name))
    else if s.table[n.name] == Number then Ok(Step(Some(n.name), s))
    else if d.None? || d.value.lTrue.None? || d.value.lFalse.None? then Stuck(NullLabel)
    else Ok(Step(None, SelectJump(s, d.value.lTrue.value, d.value.lFalse.value, n.name + " == 1")))
  }

  /**
   * Switch: jump to the test table, each case's label and body followed by a jump
   * to the exit, then the test table in case order, then the exit label.
   */
  function VisitSwitch(n: Node, d: Data, s: St): (o: Outcome<Step>)
    requires n.SwitchStmt?
    decreases n, 2
  {
    var sel :- Visit(n.selector, d, s);
    var test := LabelName(sel.st.labelNo);
    var next := LabelName(sel.st.labelNo + 1);
    var s1 := Goto(sel.st.(labelNo := sel.st.labelNo + 2), test);
    var cases :- SwitchCases(n, 0, d, next, [], [], s1);
    var s2 := SwitchTests(Text(sel.addr), cases.labels, cases.addrs, 0, Emit(cases.st, test));
    Ok(Step(None, Emit(s2, next)))
  }

  /** The first loop of the switch visit, from case i on. */
  function SwitchCases(n: Node, i: nat, d: Data, next: string, labels: seq<string>, addrs: seq<Option<string>>, s: St): (o: Outcome<Cases>)
    requires n.SwitchStmt? && i <= |n.kids| && |labels| == |addrs|
    ensures o.Ok? ==> |o.value.labels| == |o.value.addrs| == |labels| + |n.kids| - i
    decreases n, 1, |n.kids| - i
  {
    if i == |n.kids| then Ok(Cases(labels, addrs, s))
    else
      var l := LabelName(s.labelNo);
      var c :- Visit(n.kids[i], d, Emit(s.(labelNo := s.labelNo + 1), l));
      SwitchCases(n, i + 1, d, next, labels + [l], addrs + [c.addr], Goto(c.st, next))
  }

  /** The second loop of the switch visit, from entry k on. */
  function SwitchTests(temp: string, labels: seq<string>, addrs: seq<Option<string>>, k: nat, s: St): (t: St)
    requires |labels| == |addrs| && k <= |labels|
    decreases |labels| - k
  {
    if k == |labels| then s
    else
      var s1 := if addrs[k].None? then Goto(s, labels[k])
                else RelTestJump(s, Some(labels[k]), None, " " + temp + " == " + addrs[k].value);
      SwitchTests(temp, labels, addrs, k + 1, s1)
  }

  /** Case: the body, then the case's value as the visit's result. */
  function VisitCase(n: Node, d: Data, s: St): (o: Outcome<Step>)
    requires n.CaseStmt?
    decreases n, 2
  {
    var b :- Visit(n.body, d, s);
    Visit(n.value, d, b.st)
  }
}
