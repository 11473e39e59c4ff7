/**
 * Where the jumps of the generated code land. Every visit either jumps to a label
 * it prints itself or leaves through the true and false targets it was handed
 * (never through `fall`, which means "no jump"), and, unless its inherited
 * continuation is `fall`, it never prints `goto fall`. For a whole program,
 * visited without a label record, every jump target is a printed label.
 *
 * The first half is an algebra of stretches of generator state; the second half
 * follows the visits one by one, each lemma naming the states its visit passes
 * through and handing the bookkeeping to a lemma of the first half.
 */
module Soundness {
  import opened Wrappers
  import opened Names
  import opened Ast
  import opened Lowering

  /** The real targets a label record hands down: its non-null targets other than `fall`. */
  function Targets(d: Data): (ts: set<string>)
    ensures Fall !in ts
  {
    if d.None? then {}
    else
      (if d.value.lTrue.Some? && d.value.lTrue.value != Fall then {d.value.lTrue.value} else {}) +
      (if d.value.lFalse.Some? && d.value.lFalse.value != Fall then {d.value.lFalse.value} else {})
  }

  /** The inherited continuation, if any, is a real label. */
  predicate NextOk(d: Data)
  {
    d.None? || d.value.next != Some(Fall)
  }

  /**
   * From s to t the state only grew, and every jump printed meanwhile goes to a
   * line printed meanwhile or to one of `allowed`.
   */
  ghost predicate Within(s: St, t: St, allowed: set<string>)
  {
    && Grows(s, t)
    && forall x :: x in t.jumps[|s.jumps|..] ==> x in allowed || x in t.out[|s.out|..]
  }

  /** No jump printed from s to t goes to `fall`. */
  ghost predicate FallFree(s: St, t: St)
    requires Grows(s, t)
  {
    Fall !in t.jumps[|s.jumps|..]
  }

  /** What every visit with data d from state s to state t guarantees. */
  ghost predicate Sound(s: St, d: Data, t: St)
  {
    Within(s, t, Targets(d)) && (NextOk(d) ==> FallFree(s, t))
  }

  /** From s to t only the counters advanced. */
  ghost predicate Bumped(s: St, t: St)
  {
    t.out == s.out && t.jumps == s.jumps && t.table == s.table && s.id <= t.id && s.labelNo <= t.labelNo
  }

  // ---- stretches of state ----

  /** Two consecutive stretches make one. */
  lemma Chain(s: St, m: St, t: St, a: set<string>, b: set<string>)
    requires Within(s, m, a) && Within(m, t, b)
    ensures Within(s, t, a + b)
    ensures FallFree(s, t) <==> FallFree(s, m) && FallFree(m, t)
  {
    assert t.jumps[|s.jumps|..] == m.jumps[|s.jumps|..] + t.jumps[|m.jumps|..];
    assert t.out[|s.out|..] == m.out[|s.out|..] + t.out[|m.out|..];
  }

  /** Two stretches joined by one printed line that is no jump. */
  lemma Link(s: St, m: St, m2: St, t: St, a: set<string>)
    requires Within(s, m, a) && Within(m2, t, a)
    requires Grows(m, m2) && m2.jumps == m.jumps
    ensures Within(s, t, a)
    ensures FallFree(s, t) <==> FallFree(s, m) && FallFree(m2, t)
  {
    Chain(m, m2, t, {}, a);
    Chain(s, m, t, a, a);
  }

  /** What a later stretch prints, the whole stretch prints. */
  lemma OutLater(s: St, m: St, t: St, x: string)
    requires Grows(s, m) && Grows(m, t) && x in t.out[|m.out|..]
    ensures x in t.out[|s.out|..]
  {
    assert t.out[|s.out|..] == m.out[|s.out|..] + t.out[|m.out|..];
  }

  /** What an earlier stretch prints, the whole stretch prints. */
  lemma OutEarlier(s: St, m: St, t: St, x: string)
    requires Grows(s, m) && Grows(m, t) && x in m.out[|s.out|..]
    ensures x in t.out[|s.out|..]
  {
    assert t.out[|s.out|..] == m.out[|s.out|..] + t.out[|m.out|..];
  }

  lemma EmitWithin(s: St, line: string)
    ensures Within(s, Emit(s, line), {}) && FallFree(s, Emit(s, line))
    ensures line in Emit(s, line).out[|s.out|..]
  {
    assert Emit(s, line).out[|s.out|..] == [line];
  }

  lemma JumpWithin(s: St, line: string, x: string)
    ensures Within(s, Jump(s, line, x), {x})
    ensures FallFree(s, Jump(s, line, x)) <==> x != Fall
  {
    assert Jump(s, line, x).jumps[|s.jumps|..] == [x];
  }

  /** A stretch, then one more printed line that is no jump. */
  lemma ThenEmit(s: St, m: St, line: string, a: set<string>)
    requires Within(s, m, a)
    ensures Within(s, Emit(m, line), a)
    ensures FallFree(s, Emit(m, line)) <==> FallFree(s, m)
    ensures line in Emit(m, line).out[|s.out|..]
  {
    EmitWithin(m, line);
    Chain(s, m, Emit(m, line), a, {});
    OutLater(s, m, Emit(m, line), line);
  }

  lemma RelTestJumpWithin(s: St, labelTrue: Option<string>, labelFalse: Option<string>, seg: string)
    ensures var t := RelTestJump(s, labelTrue, labelFalse, seg);
      && Within(s, t, (if labelTrue.Some? then {labelTrue.value} else {}) + (if labelFalse.Some? then {labelFalse.value} else {}))
      && (FallFree(s, t) <==> labelTrue != Some(Fall) && labelFalse != Some(Fall))
  {
    if labelTrue.Some? && labelFalse.Some? {
      var m := Jump(s, "if " + seg + " goto " + labelTrue.value, labelTrue.value);
      JumpWithin(s, "if " + seg + " goto " + labelTrue.value, labelTrue.value);
      JumpWithin(m, "goto " + labelFalse.value, labelFalse.value);
      Chain(s, m, Goto(m, labelFalse.value), {labelTrue.value}, {labelFalse.value});
    } else if labelTrue.Some? {
      JumpWithin(s, "if" + seg + " goto " + labelTrue.value, labelTrue.value);
    } else if labelFalse.Some? {
      JumpWithin(s, "if" + seg + " goto " + labelFalse.value, labelFalse.value);
    }
  }

  /** The test CompExpr and Identifier emit jumps only to the real targets among t and f. */
  lemma SelectJumpSound(s: St, d: Data, t: string, f: string, cond: string)
    requires d.Some? && d.value.lTrue == Some(t) && d.value.lFalse == Some(f)
    ensures Within(s, SelectJump(s, t, f, cond), Targets(d)) && FallFree(s, SelectJump(s, t, f, cond))
  {
    if t != Fall && f != Fall {
      RelTestJumpWithin(s, Some(t), Some(f), cond);
    } else if t != Fall {
      RelTestJumpWithin(s, Some(t), None, " " + cond);
    } else if f != Fall {
      RelTestJumpWithin(s, None, Some(f), "False " + cond);
    } else {
      EmitWithin(s, "error");
    }
  }

  /** The shape of an if statement without else: test, then-branch, exit label. */
  lemma IfWithin(s: St, s1: St, c: St, t: St, sNext: string)
    requires Bumped(s, s1) && Within(s1, c, {sNext}) && Within(c, t, {sNext})
    ensures Within(s, Emit(t, sNext), {})
    ensures FallFree(s, Emit(t, sNext)) <==> FallFree(s1, c) && FallFree(c, t)
  {
    Chain(s1, c, t, {sNext}, {sNext});
    ThenEmit(s1, t, sNext, {sNext});
  }

  /** The shape of an if statement with else: test, then-branch, jump, else label, else-branch, exit label. */
  lemma IfElseWithin(s: St, s1: St, c: St, t: St, e: St, lFalse: string, sNext: string)
    requires Bumped(s, s1) && Within(s1, c, {lFalse}) && Within(c, t, {lFalse})
    requires Within(Emit(Goto(t, sNext), lFalse), e, {lFalse})
    ensures Within(s, Emit(e, sNext), {})
    ensures FallFree(s, Emit(e, sNext)) <==>
      FallFree(s1, c) && FallFree(c, t) && sNext != Fall && FallFree(Emit(Goto(t, sNext), lFalse), e)
  {
    var g := Goto(t, sNext);
    var m := Emit(g, lFalse);
    Chain(s1, c, t, {lFalse}, {lFalse});
    JumpWithin(t, "goto " + sNext, sNext);
    Chain(s1, t, g, {lFalse}, {sNext});
    ThenEmit(s1, g, lFalse, {lFalse, sNext});
    Chain(s1, m, e, {lFalse, sNext}, {lFalse});
    ThenEmit(s1, e, sNext, {lFalse, sNext});
    OutEarlier(s1, m, Emit(e, sNext), lFalse);
  }

  /** The shape of a while statement: begin label, test, body, jump back, exit label. */
  lemma WhileWithin(s: St, s0: St, c: St, b: St, begin: string, sNext: string)
    requires Bumped(s, s0) && Within(Emit(s0, begin), c, {sNext}) && Within(c, b, {sNext})
    ensures Within(s, Emit(Goto(b, begin), sNext), {})
    ensures FallFree(s, Emit(Goto(b, begin), sNext)) <==>
      FallFree(Emit(s0, begin), c) && FallFree(c, b) && begin != Fall
  {
    var s1 := Emit(s0, begin);
    EmitWithin(s0, begin);
    Chain(s0, s1, c, {}, {sNext});
    Chain(s0, c, b, {sNext}, {sNext});
    JumpWithin(b, "goto " + begin, begin);
    Chain(s0, b, Goto(b, begin), {sNext}, {begin});
    ThenEmit(s0, Goto(b, begin), sNext, {sNext, begin});
    OutEarlier(s0, s1, Emit(Goto(b, begin), sNext), begin);
  }

  /** The five lines `assignBooleanCodeGen` prints after the expression's test. */
  function AssignTail(c: St, x: string, lFalse: string, sNext: string): St
  {
    Emit(Emit(Emit(Goto(Emit(c, x + " = 1"), sNext), lFalse), x + " = 0"), sNext)
  }

  lemma AssignTailWithin(s: St, s2: St, c: St, x: string, lFalse: string, sNext: string)
    requires Bumped(s, s2) && Within(s2, c, {lFalse})
    ensures Within(s, AssignTail(c, x, lFalse, sNext), {})
    ensures FallFree(s, AssignTail(c, x, lFalse, sNext)) <==> FallFree(s2, c) && sNext != Fall
  {
    var u := AssignTail(c, x, lFalse, sNext);
    assert u.out[|c.out|..] == [x + " = 1", "goto " + sNext, lFalse, x + " = 0", sNext];
    assert u.jumps[|c.jumps|..] == [sNext];
    Chain(s2, c, u, {lFalse}, {sNext});
    OutLater(s2, c, u, lFalse);
    OutLater(s2, c, u, sNext);
  }

  /** One step of the `||`/`&&` loop: left operand, right operand, maybe a new label. */
  lemma BoolStepWithin(s: St, s1: St, left: St, right: St, u: St, r: St, a1: set<string>, ts: set<string>, own: Option<string>)
    requires Bumped(s, s1) && Within(s1, left, a1) && Within(left, right, ts) && Within(u, r, ts)
    requires u == if own.Some? then Emit(right, own.value) else right
    requires forall x :: x in a1 ==> x in ts || Some(x) == own
    ensures Within(s, r, ts)
    ensures FallFree(s, r) <==> FallFree(s1, left) && FallFree(left, right) && FallFree(u, r)
  {
    Chain(s1, left, right, a1, ts);
    if own.Some? {
      ThenEmit(s1, right, own.value, a1 + ts);
      Chain(s1, u, r, a1 + ts, ts);
      OutEarlier(s1, u, r, own.value);
    } else {
      Chain(s1, u, r, a1 + ts, ts);
    }
  }

  /** The boolean comparison: two assignments to temporaries, then the test. */
  lemma CompBoolWithin(s: St, m1: St, a1: St, m2: St, a2: St, r: St, ts: set<string>)
    requires Bumped(s, m1) && Within(m1, a1, {}) && Bumped(a1, m2) && Within(m2, a2, {}) && Within(a2, r, ts)
    ensures Within(s, r, ts)
    ensures FallFree(s, r) <==> FallFree(m1, a1) && FallFree(m2, a2) && FallFree(a2, r)
  {
    Chain(s, m1, a1, {}, {});
    Chain(s, a1, m2, {}, {});
    Chain(s, m2, a2, {}, {});
    Chain(s, a2, r, {}, ts);
  }

  /** After the cases: the test label, the test table and the exit label. */
  lemma SwitchTailWithin(temp: string, labels: seq<string>, addrs: seq<Option<string>>, test: string, next: string, c: St)
    requires |labels| == |addrs|
    ensures var u := Emit(SwitchTests(temp, labels, addrs, 0, Emit(c, test)), next);
      && Within(c, u, set x | x in labels)
      && ((forall x :: x in labels ==> x != Fall) ==> FallFree(c, u))
      && test in u.out[|c.out|..] && next in u.out[|c.out|..]
  {
    var s2 := Emit(c, test);
    var s3 := SwitchTests(temp, labels, addrs, 0, s2);
    var u := Emit(s3, next);
    SwitchTestsJumps(temp, labels, addrs, 0, s2);
    assert labels[0..] == labels;
    assert u.jumps[|c.jumps|..] == labels;
    assert u.out[|c.out|..] == s2.out[|c.out|..] + s3.out[|s2.out|..] + [next];
  }

  /** The shape of a switch: selector, jump to the tests, the cases, the tests, exit label. */
  lemma SwitchWithin(s: St, sel: St, m: St, c: St, temp: string, labels: seq<string>, addrs: seq<Option<string>>,
                     test: string, next: string, ts: set<string>)
    requires |labels| == |addrs| && test != Fall && next != Fall
    requires Within(s, sel, ts) && Bumped(sel, m) && Within(Goto(m, test), c, ts + {next})
    requires forall x :: x in labels ==> x != Fall && x in c.out[|Goto(m, test).out|..]
    ensures var u := Emit(SwitchTests(temp, labels, addrs, 0, Emit(c, test)), next);
      && Within(s, u, ts)
      && (FallFree(s, sel) && FallFree(Goto(m, test), c) ==> FallFree(s, u))
  {
    var s1 := Goto(m, test);
    var u := Emit(SwitchTests(temp, labels, addrs, 0, Emit(c, test)), next);
    var ls := set x | x in labels;
    JumpWithin(m, "goto " + test, test);
    Chain(sel, m, s1, {}, {test});
    Chain(s, sel, s1, ts, {test});
    Chain(s, s1, c, ts + {test}, ts + {next});
    SwitchTailWithin(temp, labels, addrs, test, next, c);
    Chain(s, c, u, ts + {test, next}, ls);
    OutLater(s, c, u, test);
    OutLater(s, c, u, next);
    forall x | x in ls ensures x in u.out[|s.out|..] {
      OutLater(s, s1, c, x);
      OutEarlier(s, c, u, x);
    }
  }

  /** One case of a switch: a new label, the case, the jump to the exit. */
  lemma CaseStepWithin(s: St, m: St, c: St, r: St, l: string, next: string, ts: set<string>)
    requires Bumped(s, m) && Within(Emit(m, l), c, ts) && Within(Goto(c, next), r, ts + {next})
    ensures Within(s, r, ts + {next})
    ensures FallFree(s, r) <==> FallFree(Emit(m, l), c) && next != Fall && FallFree(Goto(c, next), r)
    ensures l in r.out[|s.out|..] && Grows(s, Goto(c, next))
  {
    var s1 := Emit(m, l);
    EmitWithin(m, l);
    Chain(m, s1, c, {}, ts);
    JumpWithin(c, "goto " + next, next);
    Chain(m, c, Goto(c, next), ts, {next});
    Chain(m, Goto(c, next), r, ts + {next}, ts + {next});
    OutEarlier(m, s1, r, l);
  }

  // ---- the visits ----

  lemma {:induction false} VisitSound(n: Node, d: Data, s: St)
    requires Visit(n, d, s).Ok?
    ensures Sound(s, d, Visit(n, d, s).value.st)
    decreases n, 3
  {
    match n
    case Program(_) => VisitChildrenSound(n, d, s);
    case Declaration(_, _) =>
    case Block(_) => VisitChildrenSound(n, d, s);
    case Stmt(_) => VisitChildrenSound(n, d, s);
    case IfStmt(_, _, _) => IfSound(n, d, s);
    case WhileStmt(_, _) => WhileSound(n, s);
    case AssignStmt(_, _) => AssignSound(n, d, s);
    case Expr(e) => VisitSound(e, d, s);
    case AddExpr(_, _) => ExprCodeGenSound(n, d, s);
    case MulExpr(_, _) => ExprCodeGenSound(n, d, s);
    case UnaExpr(_, _) => UnaSound(n, d, s);
    case BoolExpr(_, _) => BoolExprSound(n, d, s);
    case CompExpr(_, _) => CompSound(n, d, s);
    case NotExpr(_, _) => NotSound(n, d, s);
    case GenValue(e) => VisitSound(e, d, s);
    case BoolValue(_) => BoolValueSound(n, d, s);
    case Identifier(_) => IdentifierSound(n, d, s);
    case IntValue(_) =>
    case SwitchStmt(_, _) => SwitchSound(n, d, s);
    case CaseStmt(_, _) => CaseSound(n, d, s);
    case DefaultStmt(_) => VisitChildrenSound(n, d, s);
  }

  lemma {:induction false} VisitChildrenSound(n: Node, d: Data, s: St)
    requires VisitsKids(n) && VisitChildren(n, d, s).Ok?
    ensures Sound(s, d, VisitChildren(n, d, s).value.st)
    decreases n, 2
  {
    ChildrenAcceptSound(n, 0, d, s);
  }

  lemma {:induction false} ChildrenAcceptSound(n: Node, i: nat, d: Data, s: St)
    requires VisitsKids(n) && i <= |n.kids| && ChildrenAccept(n, i, d, s).Ok?
    ensures Sound(s, d, ChildrenAccept(n, i, d, s).value)
    decreases n, 1, |n.kids| - i
  {
    if i < |n.kids| {
      var c := Visit(n.kids[i], d, s).value;
      var r := ChildrenAccept(n, i + 1, d, c.st).value;
      assert ChildrenAccept(n, i, d, s).value == r;
      VisitSound(n.kids[i], d, s);
      ChildrenAcceptSound(n, i + 1, d, c.st);
      Chain(s, c.st, r, Targets(d), Targets(d));
    }
  }

  /** An if statement's jumps all land inside it. */
  lemma {:induction false} IfSound(n: Node, d: Data, s: St)
    requires n.IfStmt? && VisitIf(n, d, s).Ok?
    ensures Within(s, VisitIf(n, d, s).value.st, {}) && FallFree(s, VisitIf(n, d, s).value.st)
    ensures Sound(s, d, VisitIf(n, d, s).value.st)
    decreases n, 2
  {
    if n.elseBranch.None? {
      var sNext := LabelName(s.labelNo);
      var b := NewBoolLabel(Some(Fall), Some(sNext));
      var s1 := s.(labelNo := s.labelNo + 1);
      var c := Visit(n.cond, Some(b), s1).value;
      var bt := b.(next := Some(sNext));
      var t := Visit(n.thenBranch, Some(bt), c.st).value;
      assert VisitIf(n, d, s).value.st == Emit(t.st, sNext);
      LabelNameIsNotFall(s.labelNo);
      assert Targets(Some(b)) == {sNext} && Targets(Some(bt)) == {sNext};
      VisitSound(n.cond, Some(b), s1);
      VisitSound(n.thenBranch, Some(bt), c.st);
      IfWithin(s, s1, c.st, t.st, sNext);
    } else {
      var lFalse := LabelName(s.labelNo);
      var sNext := LabelName(s.labelNo + 1);
      var b := NewBoolLabel(Some(Fall), Some(lFalse));
      var s1 := s.(labelNo := s.labelNo + 2);
      var c := Visit(n.cond, Some(b), s1).value;
      var bt := b.(next := Some(sNext));
      var t := Visit(n.thenBranch, Some(bt), c.st).value;
      var m := Emit(Goto(t.st, sNext), lFalse);
      var e := Visit(n.elseBranch.value, Some(bt), m).value;
      assert VisitIf(n, d, s).value.st == Emit(e.st, sNext);
      LabelNameIsNotFall(s.labelNo);
      LabelNameIsNotFall(s.labelNo + 1);
      assert Targets(Some(b)) == {lFalse} && Targets(Some(bt)) == {lFalse};
      VisitSound(n.cond, Some(b), s1);
      VisitSound(n.thenBranch, Some(bt), c.st);
      VisitSound(n.elseBranch.value, Some(bt), m);
      IfElseWithin(s, s1, c.st, t.st, e.st, lFalse, sNext);
    }
  }

  /** A while statement's jumps all land inside it. */
  lemma {:induction false} WhileSound(n: Node, s: St)
    requires n.WhileStmt? && VisitWhile(n, s).Ok?
    ensures Within(s, VisitWhile(n, s).value.st, {}) && FallFree(s, VisitWhile(n, s).value.st)
    decreases n, 2
  {
    var begin := LabelName(s.labelNo);
    var sNext := LabelName(s.labelNo + 1);
    var b := NewBoolLabel(Some(Fall), Some(sNext)).(next := Some(begin));
    var s0 := s.(labelNo := s.labelNo + 2);
    var c := Visit(n.cond, Some(b), Emit(s0, begin)).value;
    var bb := Visit(n.body, Some(b), c.st).value;
    assert VisitWhile(n, s).value.st == Emit(Goto(bb.st, begin), sNext);
    LabelNameIsNotFall(s.labelNo);
    LabelNameIsNotFall(s.labelNo + 1);
    assert Targets(Some(b)) == {sNext};
    VisitSound(n.cond, Some(b), Emit(s0, begin));
    VisitSound(n.body, Some(b), c.st);
    WhileWithin(s, s0, c.st, bb.st, begin, sNext);
  }

  lemma {:induction false} AssignSound(n: Node, d: Data, s: St)
    requires n.AssignStmt? && VisitAssign(n, d, s).Ok?
    ensures Sound(s, d, VisitAssign(n, d, s).value.st)
    decreases n, 2
  {
    if s.table[n.name] == Number {
      var v := Visit(n.value, d, s).value;
      VisitSound(n.value, d, s);
      ThenEmit(s, v.st, n.name + " = " + Text(v.addr), Targets(d));
    } else {
      AssignBooleanCodeGenSound(n.value, n.name, d, s);
    }
  }

  /**
   * The jumps of `assignBooleanCodeGen` all land inside it; none goes to `fall`
   * unless the inherited continuation is `fall`.
   */
  lemma {:induction false} AssignBooleanCodeGenSound(b: Node, x: string, d: Data, s: St)
    requires AssignBooleanCodeGen(b, x, d, s).Ok?
    ensures Within(s, AssignBooleanCodeGen(b, x, d, s).value.st, {})
    ensures NextOk(d) ==> FallFree(s, AssignBooleanCodeGen(b, x, d, s).value.st)
    ensures Sound(s, d, AssignBooleanCodeGen(b, x, d, s).value.st)
    decreases b, 4
  {
    var lFalse := LabelName(s.labelNo);
    var s1 := s.(labelNo := s.labelNo + 1);
    var inherited := if d.Some? then d.value.next else None;
    var sNext := if inherited.Some? then inherited.value else LabelName(s1.labelNo);
    var s2 := if inherited.Some? then s1 else s1.(labelNo := s1.labelNo + 1);
    var cb := CopyBoolLabel(Some(NewBoolLabel(Some(Fall), Some(lFalse))));
    var c := Visit(b, Some(cb), s2).value;
    assert AssignBooleanCodeGen(b, x, d, s).value.st == AssignTail(c.st, x, lFalse, sNext);
    LabelNameIsNotFall(s.labelNo);
    LabelNameIsNotFall(s.labelNo + 1);
    VisitSound(b, Some(cb), s2);
    AssignTailWithin(s, s2, c.st, x, lFalse, sNext);
  }

  lemma {:induction false} ExprCodeGenSound(n: Node, d: Data, s: St)
    requires (n.AddExpr? || n.MulExpr?) && ExprCodeGen(n, d, s).Ok?
    ensures Sound(s, d, ExprCodeGen(n, d, s).value.st)
    decreases n, 2
  {
    var e1 := Visit(n.operands[0], d, s).value;
    VisitSound(n.operands[0], d, s);
    ExprFoldSound(n, 0, e1.addr, d, e1.st);
    Chain(s, e1.st, ExprFold(n, 0, e1.addr, d, e1.st).value.st, Targets(d), Targets(d));
  }

  lemma {:induction false} ExprFoldSound(n: Node, i: nat, acc: Option<string>, d: Data, s: St)
    requires (n.AddExpr? || n.MulExpr?) && i <= |n.ops| && ExprFold(n, i, acc, d, s).Ok?
    ensures Sound(s, d, ExprFold(n, i, acc, d, s).value.st)
    decreases n, 1, |n.ops| - i
  {
    if i < |n.ops| {
      var e2 := Visit(n.operands[i + 1], d, s).value;
      var t := TempName(e2.st.id);
      var s1 := Emit(e2.st.(id := e2.st.id + 1), BinaryLine(t, acc, n.ops[i], e2.addr));
      var r := ExprFold(n, i + 1, Some(t), d, s1).value.st;
      assert ExprFold(n, i, acc, d, s).value.st == r;
      VisitSound(n.operands[i + 1], d, s);
      ExprFoldSound(n, i + 1, Some(t), d, s1);
      Link(s, e2.st, s1, r, Targets(d));
    }
  }

  lemma {:induction false} UnaSound(n: Node, d: Data, s: St)
    requires n.UnaExpr? && VisitUna(n, d, s).Ok?
    ensures Sound(s, d, VisitUna(n, d, s).value.st)
    decreases n, 2
  {
    var e1 := Visit(n.inner, d, s).value;
    VisitSound(n.inner, d, s);
    UnaFoldWithin(n.ops, 0, e1.addr, e1.st);
    Chain(s, e1.st, UnaFold(n.ops, 0, e1.addr, e1.st).st, Targets(d), {});
  }

  /** The operator loop of UnaExpr prints no jump. */
  lemma {:induction false} UnaFoldWithin(ops: seq<string>, i: nat, acc: Option<string>, s: St)
    requires i <= |ops|
    ensures Within(s, UnaFold(ops, i, acc, s).st, {}) && FallFree(s, UnaFold(ops, i, acc, s).st)
    decreases |ops| - i
  {
    if i < |ops| {
      var t := TempName(s.id);
      var s1 := Emit(s.(id := s.id + 1), t + " = " + ops[i] + " " + Text(acc));
      UnaFoldWithin(ops, i + 1, Some(t), s1);
      Link(s, s, s1, UnaFold(ops, i + 1, Some(t), s1).st, {});
    }
  }

  lemma CopyTargets(d: Data)
    ensures Targets(Some(CopyBoolLabel(d))) == Targets(d)
    ensures NextOk(Some(CopyBoolLabel(d)))
  {
  }

  lemma {:induction false} BoolExprSound(n: Node, d: Data, s: St)
    requires n.BoolExpr? && VisitBoolExpr(n, d, s).Ok?
    ensures Sound(s, d, VisitBoolExpr(n, d, s).value.st)
    decreases n, 2
  {
    if |n.ops| == 0 {
      CopyTargets(d);
      VisitSound(n.operands[0], Some(CopyBoolLabel(d)), s);
    } else {
      BoolLoopSound(n, |n.ops|, d.value, s);
    }
  }

  /** The loop of the BoolExpr visit prints no jump to `fall`, whatever its continuation. */
  lemma {:induction false} BoolLoopSound(n: Node, i: nat, bLabel: BoolLabel, s: St)
    requires n.BoolExpr? && i <= |n.ops| && BoolLoop(n, i, bLabel, s).Ok?
    ensures Within(s, BoolLoop(n, i, bLabel, s).value.st, Targets(Some(bLabel)))
    ensures FallFree(s, BoolLoop(n, i, bLabel, s).value.st)
    decreases n, 1, i
  {
    if i > 0 {
      var lNew := LabelName(s.labelNo);
      var allocate, b1;
      if n.ops[i - 1] == "||" {
        allocate := bLabel.lTrue.value == Fall;
        b1 := if allocate then NewBoolLabel(Some(lNew), Some(Fall)) else NewBoolLabel(bLabel.lTrue, Some(Fall));
      } else {
        allocate := bLabel.lFalse.value == Fall;
        b1 := if allocate then NewBoolLabel(Some(Fall), Some(lNew)) else NewBoolLabel(Some(Fall), bLabel.lFalse);
      }
      var s1 := if allocate then s.(labelNo := s.labelNo + 1) else s;
      var cb1 := CopyBoolLabel(Some(b1));
      var cb := CopyBoolLabel(Some(bLabel));
      var left := Visit(n.operands[i - 1], Some(cb1), s1).value;
      var right := Visit(n.operands[i], Some(cb), left.st).value;
      var u := if allocate then Emit(right.st, lNew) else right.st;
      var r := BoolLoop(n, i - 1, bLabel, u).value.st;
      assert BoolLoop(n, i, bLabel, s).value.st == r;
      LabelNameIsNotFall(s.labelNo);
      CopyTargets(Some(b1));
      CopyTargets(Some(bLabel));
      VisitSound(n.operands[i - 1], Some(cb1), s1);
      VisitSound(n.operands[i], Some(cb), left.st);
      BoolLoopSound(n, i - 1, bLabel, u);
      BoolStepWithin(s, s1, left.st, right.st, u, r, Targets(Some(b1)), Targets(Some(bLabel)),
                     if allocate then Some(lNew) else None);
    }
  }

  lemma {:induction false} CompSound(n: Node, d: Data, s: St)
    requires n.CompExpr? && VisitComp(n, d, s).Ok?
    ensures Sound(s, d, VisitComp(n, d, s).value.st)
    decreases n, 2
  {
    if n.op.None? {
      VisitSound(n.operands[0], d, s);
    } else {
      var leaf := LeftmostValue(n.operands[0]).value;
      var numeric := NumberComparison(leaf, s.table).value;
      var t, f := d.value.lTrue.value, d.value.lFalse.value;
      if t == Fall && f == Fall {
        EmitWithin(s, "error");
      } else if numeric {
        var e1 := Visit(n.operands[0], d, s).value;
        var e2 := Visit(n.operands[1], d, e1.st).value;
        var cond := Text(e1.addr) + " " + n.op.value + " " + Text(e2.addr);
        assert VisitComp(n, d, s).value.st == SelectJump(e2.st, t, f, cond);
        VisitSound(n.operands[0], d, s);
        VisitSound(n.operands[1], d, e1.st);
        SelectJumpSound(e2.st, d, t, f, cond);
        Chain(s, e1.st, e2.st, Targets(d), Targets(d));
        Chain(s, e2.st, SelectJump(e2.st, t, f, cond), Targets(d), Targets(d));
      } else {
        var m1 := s.(id := s.id + 1);
        var a1 := AssignBooleanCodeGen(n.operands[0], TempName(s.id), d, m1).value;
        var m2 := a1.st.(id := a1.st.id + 1);
        var a2 := AssignBooleanCodeGen(n.operands[1], TempName(a1.st.id), d, m2).value;
        var cond := Text(a1.addr) + " " + n.op.value + " " + Text(a2.addr);
        assert VisitComp(n, d, s).value.st == SelectJump(a2.st, t, f, cond);
        AssignBooleanCodeGenSound(n.operands[0], TempName(s.id), d, m1);
        AssignBooleanCodeGenSound(n.operands[1], TempName(a1.st.id), d, m2);
        SelectJumpSound(a2.st, d, t, f, cond);
        CompBoolWithin(s, m1, a1.st, m2, a2.st, SelectJump(a2.st, t, f, cond), Targets(d));
      }
    }
  }

  lemma {:induction false} NotSound(n: Node, d: Data, s: St)
    requires n.NotExpr? && VisitNot(n, d, s).Ok?
    ensures Sound(s, d, VisitNot(n, d, s).value.st)
    decreases n, 2
  {
    if |n.ops| == 0 {
      VisitSound(n.inner, d, s);
    } else {
      NotLoopSound(n, 0, d.value, s);
    }
  }

  /** Swapping the two targets, as each `!` does, hands down the same real targets. */
  lemma {:induction false} NotLoopSound(n: Node, i: nat, bLabel: BoolLabel, s: St)
    requires n.NotExpr? && i <= |n.ops| && NotLoop(n, i, bLabel, s).Ok?
    ensures Within(s, NotLoop(n, i, bLabel, s).value.st, Targets(Some(bLabel)))
    ensures FallFree(s, NotLoop(n, i, bLabel, s).value.st)
    decreases n, 1, |n.ops| - i
  {
    if i < |n.ops| {
      var b1 := NewBoolLabel(bLabel.lFalse, bLabel.lTrue);
      var c := Visit(n.inner, Some(b1), s).value;
      var r := NotLoop(n, i + 1, CopyBoolLabel(Some(b1)), c.st).value.st;
      assert NotLoop(n, i, bLabel, s).value.st == r;
      assert Targets(Some(b1)) == Targets(Some(bLabel));
      CopyTargets(Some(b1));
      VisitSound(n.inner, Some(b1), s);
      NotLoopSound(n, i + 1, CopyBoolLabel(Some(b1)), c.st);
      Chain(s, c.st, r, Targets(Some(bLabel)), Targets(Some(bLabel)));
    }
  }

  lemma BoolValueSound(n: Node, d: Data, s: St)
    requires n.BoolValue? && VisitBoolValue(n, d, s).Ok?
    ensures Sound(s, d, VisitBoolValue(n, d, s).value.st) && FallFree(s, VisitBoolValue(n, d, s).value.st)
  {
    var target := if n.b then d.value.lTrue else d.value.lFalse;
    if target.value != Fall {
      JumpWithin(s, "goto " + target.value, target.value);
    }
  }

  lemma IdentifierSound(n: Node, d: Data, s: St)
    requires n.Identifier? && VisitIdentifier(n, d, s).Ok?
    ensures Sound(s, d, VisitIdentifier(n, d, s).value.st) && FallFree(s, VisitIdentifier(n, d, s).value.st)
  {
    if s.table[n.name] != Number {
      SelectJumpSound(s, d, d.value.lTrue.value, d.value.lFalse.value, n.name + " == 1");
    }
  }

  lemma {:induction false} SwitchSound(n: Node, d: Data, s: St)
    requires n.SwitchStmt? && VisitSwitch(n, d, s).Ok?
    ensures Sound(s, d, VisitSwitch(n, d, s).value.st)
    decreases n, 2
  {
    var sel := Visit(n.selector, d, s).value;
    var test := LabelName(sel.st.labelNo);
    var next := LabelName(sel.st.labelNo + 1);
    var m := sel.st.(labelNo := sel.st.labelNo + 2);
    var cases := SwitchCases(n, 0, d, next, [], [], Goto(m, test)).value;
    assert VisitSwitch(n, d, s).value.st ==
      Emit(SwitchTests(Text(sel.addr), cases.labels, cases.addrs, 0, Emit(cases.st, test)), next);
    LabelNameIsNotFall(sel.st.labelNo);
    LabelNameIsNotFall(sel.st.labelNo + 1);
    VisitSound(n.selector, d, s);
    SwitchCasesSound(n, 0, d, next, [], [], Goto(m, test));
    assert cases.labels[0..] == cases.labels;
    SwitchWithin(s, sel.st, m, cases.st, Text(sel.addr), cases.labels, cases.addrs, test, next, Targets(d));
  }

  /** Each case of a switch is placed under a fresh label, and the label is printed. */
  lemma {:induction false} SwitchCasesSound(n: Node, i: nat, d: Data, next: string, labels: seq<string>, addrs: seq<Option<string>>, s: St)
    requires n.SwitchStmt? && i <= |n.kids| && |labels| == |addrs| && next != Fall
    requires SwitchCases(n, i, d, next, labels, addrs, s).Ok?
    ensures var c := SwitchCases(n, i, d, next, labels, addrs, s).value;
      && Within(s, c.st, Targets(d) + {next})
      && (NextOk(d) ==> FallFree(s, c.st))
      && |c.labels| >= |labels| && c.labels[..|labels|] == labels
      && forall x :: x in c.labels[|labels|..] ==> x != Fall && x in c.st.out[|s.out|..]
    decreases n, 1, |n.kids| - i
  {
    if i < |n.kids| {
      var l := LabelName(s.labelNo);
      var m := s.(labelNo := s.labelNo + 1);
      var c := Visit(n.kids[i], d, Emit(m, l)).value;
      var rest := SwitchCases(n, i + 1, d, next, labels + [l], addrs + [c.addr], Goto(c.st, next)).value;
      assert SwitchCases(n, i, d, next, labels, addrs, s).value == rest;
      LabelNameIsNotFall(s.labelNo);
      VisitSound(n.kids[i], d, Emit(m, l));
      SwitchCasesSound(n, i + 1, d, next, labels + [l], addrs + [c.addr], Goto(c.st, next));
      CaseStepWithin(s, m, c.st, rest.st, l, next, Targets(d));
      CaseLabels(labels, l, rest.labels, s, Goto(c.st, next), rest.st);
    }
  }

  /** The labels of the cases from this one on are real and printed. */
  lemma CaseLabels(labels: seq<string>, l: string, r: seq<string>, s: St, g: St, t: St)
    requires |r| >= |labels| + 1 && r[..|labels| + 1] == labels + [l]
    requires Grows(s, g) && Grows(g, t) && l != Fall && l in t.out[|s.out|..]
    requires forall x :: x in r[|labels| + 1..] ==> x != Fall && x in t.out[|g.out|..]
    ensures r[..|labels|] == labels
    ensures forall x :: x in r[|labels|..] ==> x != Fall && x in t.out[|s.out|..]
  {
    assert r[..|labels|] == (labels + [l])[..|labels|];
    assert r[|labels|..] == [l] + r[|labels| + 1..];
    forall x | x in r[|labels|..] ensures x != Fall && x in t.out[|s.out|..] {
      if x != l {
        assert x in r[|labels| + 1..];
        OutLater(s, g, t, x);
      }
    }
  }

  /** The test table jumps to the case labels in order, each exactly once. */
  lemma {:induction false} SwitchTestsJumps(temp: string, labels: seq<string>, addrs: seq<Option<string>>, k: nat, s: St)
    requires |labels| == |addrs| && k <= |labels|
    ensures var t := SwitchTests(temp, labels, addrs, k, s);
      Grows(s, t) && t.jumps == s.jumps + labels[k..]
    decreases |labels| - k
  {
    if k < |labels| {
      var s1 := if addrs[k].None? then Goto(s, labels[k])
                else RelTestJump(s, Some(labels[k]), None, " " + temp + " == " + addrs[k].value);
      assert s1.jumps == s.jumps + [labels[k]] && Grows(s, s1);
      SwitchTestsJumps(temp, labels, addrs, k + 1, s1);
      assert labels[k..] == [labels[k]] + labels[k + 1..];
    }
  }

  lemma {:induction false} CaseSound(n: Node, d: Data, s: St)
    requires n.CaseStmt? && VisitCase(n, d, s).Ok?
    ensures Sound(s, d, VisitCase(n, d, s).value.st)
    decreases n, 2
  {
    var b := Visit(n.body, d, s).value;
    VisitSound(n.body, d, s);
    VisitSound(n.value, d, b.st);
    Chain(s, b.st, Visit(n.value, d, b.st).value.st, Targets(d), Targets(d));
  }

  /** The state the generator starts in. */
  function Initial(): St
  {
    St(0, 0, map[], [], [])
  }

  /**
   * Generating a whole program: every jump printed goes to a label that is also
   * printed, and none goes to `fall`.
   */
  lemma ProgramJumpsLand(p: Node)
    requires p.Program? && Visit(p, None, Initial()).Ok?
    ensures var t := Visit(p, None, Initial()).value.st;
      forall x :: x in t.jumps ==> x != Fall && x in t.out
  {
    VisitSound(p, None, Initial());
    var t := Visit(p, None, Initial()).value.st;
    assert t.jumps[0..] == t.jumps && t.out[0..] == t.out;
  }
}
