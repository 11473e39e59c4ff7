/**
 * The shapes of the jumping code: the run of condition visits that `!` and the
 * `||`/`&&` chains make, the materialisation of a boolean assignment, the
 * layout of the statements and the test section of a switch, each stated
 * against a reference definition written in the generator's vocabulary.
 */
module Shapes {
  import opened Wrappers
  import opened Names
  import opened Ast
  import opened Lowering
  import Soundness
  import Properties

  // ---- runs of condition visits ----

  /** Visit each node with its label, in order, threading the state; stop at the first fault. */
  function VisitSeq(visits: seq<(Node, BoolLabel)>, s: St): Outcome<St>
    decreases |visits|
  {
    if visits == [] then Ok(s)
    else
      var c :- Visit(visits[0].0, Some(visits[0].1), s);
      VisitSeq(visits[1..], c.st)
  }

  /** The result of a statement-like visit: null, after the given run. */
  function Silent(o: Outcome<St>): Outcome<Step>
  {
    match o
    case Ok(t) => Ok(Step(None, t))
    case Stuck(f) => Stuck(f)
  }

  /** The two targets of bl, exchanged, with no continuation. */
  function Swapped(bl: BoolLabel): BoolLabel
  {
    BoolLabel(bl.lFalse, bl.lTrue, None)
  }

  /** The two targets of bl, kept, with no continuation. */
  function Kept(bl: BoolLabel): BoolLabel
  {
    BoolLabel(bl.lTrue, bl.lFalse, None)
  }

  lemma VisitSeqCons(v: seq<(Node, BoolLabel)>, s: St)
    requires |v| > 0
    ensures VisitSeq(v, s) ==
      match Visit(v[0].0, Some(v[0].1), s)
      case Ok(c) => VisitSeq(v[1..], c.st)
      case Stuck(f) => Stuck(f)
  {
  }

  // ---- NotExpr ----

  /**
   * The visits a run of k `!` makes: k visits of the operand, the first with
   * the targets exchanged and every next one exchanging them back.
   */
  function NotVisits(inner: Node, bl: BoolLabel, k: nat): (v: seq<(Node, BoolLabel)>)
  {
    seq(k, j requires 0 <= j < k => (inner, if j % 2 == 0 then Swapped(bl) else Kept(bl)))
  }

  lemma NotVisitsTail(inner: Node, bl: BoolLabel, k: nat)
    requires k > 0
    ensures NotVisits(inner, bl, k)[0] == (inner, Swapped(bl))
    ensures NotVisits(inner, bl, k)[1..] == NotVisits(inner, Swapped(bl), k - 1)
  {
    var a := NotVisits(inner, bl, k);
    var b := NotVisits(inner, Swapped(bl), k - 1);
    forall j | 0 <= j < k - 1 ensures a[j + 1] == b[j] {
      if j % 2 == 0 {
        assert (j + 1) % 2 == 1;
      } else {
        assert (j + 1) % 2 == 0;
      }
    }
    assert a[1..] == b;
  }

  /** The NotExpr loop from operator i on is the run of the remaining NotVisits. */
  lemma {:induction false} NotLoopVisits(n: Node, i: nat, bl: BoolLabel, s: St)
    requires n.NotExpr? && i <= |n.ops|
    ensures NotLoop(n, i, bl, s) == Silent(VisitSeq(NotVisits(n.inner, bl, |n.ops| - i), s))
    decreases |n.ops| - i
  {
    var v := NotVisits(n.inner, bl, |n.ops| - i);
    if i == |n.ops| {
      assert v == [];
    } else {
      NotVisitsTail(n.inner, bl, |n.ops| - i);
      VisitSeqCons(v, s);
      var b1 := NewBoolLabel(bl.lFalse, bl.lTrue);
      assert b1 == Swapped(bl) && CopyBoolLabel(Some(b1)) == Swapped(bl);
      var c := Visit(n.inner, Some(b1), s);
      if c.Ok? {
        NotLoopVisits(n, i + 1, Swapped(bl), c.value.st);
      }
    }
  }

  /**
   * NotExpr: with no `!` the operand is visited with the inherited data; with
   * k > 0 of them it is visited k times, the targets alternating from
   * exchanged, and the visit returns null.
   */
  lemma NotShape(n: Node, d: Data, s: St)
    requires n.NotExpr?
    ensures |n.ops| == 0 ==> VisitNot(n, d, s) == Visit(n.inner, d, s)
    ensures |n.ops| > 0 && d.None? ==> VisitNot(n, d, s) == Stuck(NullLabel)
    ensures |n.ops| > 0 && d.Some? ==> VisitNot(n, d, s) == Silent(VisitSeq(NotVisits(n.inner, d.value, |n.ops|), s))
  {
    if |n.ops| > 0 && d.Some? {
      NotLoopVisits(n, 0, d.value, s);
    }
  }

  /**
   * The last visit of the operand sees the targets exchanged exactly when the
   * number of `!` is odd, and every visit is of the operand.
   */
  lemma NotParity(inner: Node, bl: BoolLabel, k: nat)
    requires k > 0
    ensures NotVisits(inner, bl, k)[k - 1].1 == if k % 2 == 1 then Swapped(bl) else Kept(bl)
    ensures forall j :: 0 <= j < k ==> NotVisits(inner, bl, k)[j].0 == inner
  {
  }

  // ---- BoolExpr ----

  /** The label the left operand of a round gets when no fresh label is needed. */
  function LeftLabel(op: string, bl: BoolLabel): BoolLabel
  {
    if op == "||" then BoolLabel(bl.lTrue, Some(Fall), None) else BoolLabel(Some(Fall), bl.lFalse, None)
  }

  /** No round of the chain needs a fresh label: every `||` has a real true target, every other operator a real false one. */
  predicate NoFreshLabel(ops: seq<string>, bl: BoolLabel)
  {
    forall j :: 0 <= j < |ops| ==>
      if ops[j] == "||" then bl.lTrue.Some? && bl.lTrue.value != Fall else bl.lFalse.Some? && bl.lFalse.value != Fall
  }

  /**
   * The visits the BoolExpr loop makes for rounds i down to 1: in round r the
   * operand r - 1 with the label of the operator r - 1, then the operand r with
   * the inherited targets.
   */
  function BoolVisits(n: Node, bl: BoolLabel, i: nat): (v: seq<(Node, BoolLabel)>)
    requires n.BoolExpr? && i <= |n.ops| && i < |n.operands|
  {
    seq(2 * i, j requires 0 <= j < 2 * i =>
      var r := i - j / 2;
      if j % 2 == 0 then (n.operands[r - 1], LeftLabel(n.ops[r - 1], bl)) else (n.operands[r], Kept(bl)))
  }

  lemma BoolVisitsTail(n: Node, bl: BoolLabel, i: nat)
    requires n.BoolExpr? && 0 < i <= |n.ops| && i < |n.operands|
    ensures BoolVisits(n, bl, i)[0] == (n.operands[i - 1], LeftLabel(n.ops[i - 1], bl))
    ensures BoolVisits(n, bl, i)[1] == (n.operands[i], Kept(bl))
    ensures BoolVisits(n, bl, i)[2..] == BoolVisits(n, bl, i - 1)
  {
    var a := BoolVisits(n, bl, i);
    var b := BoolVisits(n, bl, i - 1);
    forall j | 0 <= j < 2 * (i - 1) ensures a[j + 2] == b[j] {
      assert (j + 2) / 2 == j / 2 + 1 && (j + 2) % 2 == j % 2;
    }
    assert a[2..] == b;
  }

  /** The target a round of operator op reads: the true one for `||`, the false one otherwise. */
  function RoundTarget(op: string, bl: BoolLabel): Option<string>
  {
    if op == "||" then bl.lTrue else bl.lFalse
  }

  /** A round takes a fresh label exactly when the target it reads is `fall`. */
  predicate Fresh(op: string, bl: BoolLabel)
  {
    RoundTarget(op, bl) == Some(Fall)
  }

  /** The label the left operand of a round starting in state s gets, with or without a fresh label. */
  function RoundLeft(op: string, bl: BoolLabel, s: St): BoolLabel
  {
    if !Fresh(op, bl) then LeftLabel(op, bl)
    else if op == "||" then BoolLabel(Some(LabelName(s.labelNo)), Some(Fall), None)
    else BoolLabel(Some(Fall), Some(LabelName(s.labelNo)), None)
  }

  /** The state the operands of a round starting in s are visited from: a fresh label is taken first. */
  function RoundStart(op: string, bl: BoolLabel, s: St): St
  {
    if Fresh(op, bl) then s.(labelNo := s.labelNo + 1) else s
  }

  /** The state after a round that started in s and whose operands left t: a fresh label is placed last. */
  function RoundEnd(op: string, bl: BoolLabel, s: St, t: St): St
  {
    if Fresh(op, bl) then Emit(t, LabelName(s.labelNo)) else t
  }

  /**
   * One round of any chain: a null target faults; otherwise the left operand
   * with (target, fall) for `||` or (fall, target) for `&&`, where a target of
   * `fall` is replaced by a fresh label l, then the right operand with the
   * inherited targets, then l when one was taken.
   */
  lemma BoolRound(n: Node, i: nat, bl: BoolLabel, s: St)
    requires n.BoolExpr? && 0 < i <= |n.ops|
    ensures var op := n.ops[i - 1];
      RoundTarget(op, bl).None? ==> BoolLoop(n, i, bl, s) == Stuck(NullLabel)
    ensures var op := n.ops[i - 1];
      RoundTarget(op, bl).Some? && i >= |n.operands| ==> BoolLoop(n, i, bl, s) == Stuck(Malformed)
    ensures var op := n.ops[i - 1];
      RoundTarget(op, bl).Some? && i < |n.operands| ==>
        BoolLoop(n, i, bl, s) ==
          match VisitSeq([(n.operands[i - 1], RoundLeft(op, bl, s)), (n.operands[i], Kept(bl))], RoundStart(op, bl, s))
          case Ok(t) => BoolLoop(n, i - 1, bl, RoundEnd(op, bl, s, t))
          case Stuck(f) => Stuck(f)
  {
    var op := n.ops[i - 1];
    if RoundTarget(op, bl).Some? && i < |n.operands| {
      var v := [(n.operands[i - 1], RoundLeft(op, bl, s)), (n.operands[i], Kept(bl))];
      var s1 := RoundStart(op, bl, s);
      VisitSeqCons(v, s1);
      assert CopyBoolLabel(Some(CopyBoolLabel(Some(bl)))) == Kept(bl);
      var l := LabelName(s.labelNo);
      if op == "||" {
        if Fresh(op, bl) {
          assert CopyBoolLabel(Some(NewBoolLabel(Some(l), Some(Fall)))) == RoundLeft(op, bl, s);
        } else {
          assert CopyBoolLabel(Some(NewBoolLabel(bl.lTrue, Some(Fall)))) == RoundLeft(op, bl, s);
        }
      } else {
        if Fresh(op, bl) {
          assert CopyBoolLabel(Some(NewBoolLabel(Some(Fall), Some(l)))) == RoundLeft(op, bl, s);
        } else {
          assert CopyBoolLabel(Some(NewBoolLabel(Some(Fall), bl.lFalse))) == RoundLeft(op, bl, s);
        }
      }
      var left := Visit(n.operands[i - 1], Some(RoundLeft(op, bl, s)), s1);
      if left.Ok? {
        VisitSeqCons(v[1..], left.value.st);
        assert v[1..][1..] == [];
      }
    }
  }

  /**
   * When no round needs a fresh label, the loop from round i down is exactly the
   * run of BoolVisits and prints nothing of its own.
   */
  lemma {:induction false} BoolLoopVisits(n: Node, i: nat, bl: BoolLabel, s: St)
    requires n.BoolExpr? && i <= |n.ops| && i < |n.operands| && NoFreshLabel(n.ops, bl)
    ensures BoolLoop(n, i, bl, s) == Silent(VisitSeq(BoolVisits(n, bl, i), s))
    decreases i
  {
    var v := BoolVisits(n, bl, i);
    if i == 0 {
      assert v == [];
    } else {
      BoolVisitsTail(n, bl, i);
      BoolRound(n, i, bl, s);
      VisitSeqCons(v, s);
      var left := Visit(n.operands[i - 1], Some(LeftLabel(n.ops[i - 1], bl)), s);
      if left.Ok? {
        VisitSeqCons(v[1..], left.value.st);
        assert v[1..][0] == v[1] && v[1..][1..] == v[2..];
        var pair := [(n.operands[i - 1], LeftLabel(n.ops[i - 1], bl)), (n.operands[i], Kept(bl))];
        VisitSeqCons(pair, s);
        var right := Visit(n.operands[i], Some(Kept(bl)), left.value.st);
        if right.Ok? {
          VisitSeqCons(pair[1..], left.value.st);
          assert pair[1..][1..] == [];
          BoolLoopVisits(n, i - 1, bl, right.value.st);
        }
      }
    }
  }

  /**
   * A chain `a0 op1 a1 ... opk ak` whose rounds need no fresh label visits, for
   * r = k down to 1, the operand r - 1 and then the operand r.
   */
  lemma BoolExprVisits(n: Node, bl: BoolLabel, s: St)
    requires n.BoolExpr? && |n.ops| > 0 && |n.operands| > |n.ops| && NoFreshLabel(n.ops, bl)
    ensures VisitBoolExpr(n, Some(bl), s) == Silent(VisitSeq(BoolVisits(n, bl, |n.ops|), s))
  {
    BoolLoopVisits(n, |n.ops|, bl, s);
  }

  /** A run of two visits succeeds exactly when both do, the second from the state the first leaves. */
  lemma VisitPair(a: Node, la: BoolLabel, b: Node, lb: BoolLabel, s: St)
    ensures var r := VisitSeq([(a, la), (b, lb)], s);
      var first := Visit(a, Some(la), s);
      && (r.Ok? ==> first.Ok? && Visit(b, Some(lb), first.value.st).Ok?
                    && r.value == Visit(b, Some(lb), first.value.st).value.st)
      && (first.Ok? && Visit(b, Some(lb), first.value.st).Ok? ==> r.Ok?)
  {
    var v := [(a, la), (b, lb)];
    VisitSeqCons(v, s);
    var first := Visit(a, Some(la), s);
    if first.Ok? {
      VisitSeqCons(v[1..], first.value.st);
      assert v[1..][1..] == [];
    }
  }

  /**
   * Every inner operand k of a chain is visited twice, in any chain, fresh labels
   * or not: round k + 1 visits it as its left operand, and the next round, k,
   * visits it again as its right operand with the inherited targets. So its code
   * is generated twice, once before and once after the code of operand k + 1.
   */
  lemma InnerOperandTwice(n: Node, bl: BoolLabel, k: nat, s: St)
    requires n.BoolExpr? && 0 < k < |n.ops| && |n.operands| > |n.ops| && BoolLoop(n, k + 1, bl, s).Ok?
    ensures var op1, op0 := n.ops[k], n.ops[k - 1];
      var first := Visit(n.operands[k], Some(RoundLeft(op1, bl, s)), RoundStart(op1, bl, s));
      && first.Ok?
      && var right := Visit(n.operands[k + 1], Some(Kept(bl)), first.value.st);
      && right.Ok?
      && var m := RoundEnd(op1, bl, s, right.value.st);
      && var left := Visit(n.operands[k - 1], Some(RoundLeft(op0, bl, m)), RoundStart(op0, bl, m));
      && left.Ok?
      && var again := Visit(n.operands[k], Some(Kept(bl)), left.value.st);
      && again.Ok?
      && BoolLoop(n, k + 1, bl, s) == BoolLoop(n, k - 1, bl, RoundEnd(op0, bl, m, again.value.st))
  {
    var op1, op0 := n.ops[k], n.ops[k - 1];
    BoolRound(n, k + 1, bl, s);
    VisitPair(n.operands[k], RoundLeft(op1, bl, s), n.operands[k + 1], Kept(bl), RoundStart(op1, bl, s));
    var first := Visit(n.operands[k], Some(RoundLeft(op1, bl, s)), RoundStart(op1, bl, s)).value;
    var right := Visit(n.operands[k + 1], Some(Kept(bl)), first.st).value;
    var m := RoundEnd(op1, bl, s, right.st);
    BoolRound(n, k, bl, m);
    VisitPair(n.operands[k - 1], RoundLeft(op0, bl, m), n.operands[k], Kept(bl), RoundStart(op0, bl, m));
  }

  /**
   * A single `||` whose true target is `fall` takes a fresh label l: the left
   * operand jumps to l when true and falls when false, the right one gets the
   * inherited targets, and l is placed after both.
   */
  lemma SingleOrFresh(n: Node, bl: BoolLabel, s: St)
    requires n.BoolExpr? && |n.ops| == 1 && n.ops[0] == "||" && |n.operands| >= 2 && bl.lTrue == Some(Fall)
    ensures var l := LabelName(s.labelNo);
      var r := VisitSeq([(n.operands[0], BoolLabel(Some(l), Some(Fall), None)), (n.operands[1], Kept(bl))], s.(labelNo := s.labelNo + 1));
      VisitBoolExpr(n, Some(bl), s) == Silent(if r.Ok? then Ok(Emit(r.value, l)) else r)
  {
    var l := LabelName(s.labelNo);
    var v := [(n.operands[0], BoolLabel(Some(l), Some(Fall), None)), (n.operands[1], Kept(bl))];
    var s1 := s.(labelNo := s.labelNo + 1);
    assert CopyBoolLabel(Some(NewBoolLabel(Some(l), Some(Fall)))) == v[0].1;
    assert CopyBoolLabel(Some(CopyBoolLabel(Some(bl)))) == Kept(bl);
    VisitSeqCons(v, s1);
    var left := Visit(n.operands[0], Some(v[0].1), s1);
    if left.Ok? {
      VisitSeqCons(v[1..], left.value.st);
      assert v[1..][1..] == [];
      var right := Visit(n.operands[1], Some(Kept(bl)), left.value.st);
      if right.Ok? {
        assert BoolLoop(n, 1, bl, s) == BoolLoop(n, 0, bl, Emit(right.value.st, l));
      }
    }
  }

  /**
   * A single `&&` whose false target is `fall` takes a fresh label l: the left
   * operand falls when true and jumps to l when false, the right one gets the
   * inherited targets, and l is placed after both.
   */
  lemma SingleAndFresh(n: Node, bl: BoolLabel, s: St)
    requires n.BoolExpr? && |n.ops| == 1 && n.ops[0] != "||" && |n.operands| >= 2 && bl.lFalse == Some(Fall)
    ensures var l := LabelName(s.labelNo);
      var r := VisitSeq([(n.operands[0], BoolLabel(Some(Fall), Some(l), None)), (n.operands[1], Kept(bl))], s.(labelNo := s.labelNo + 1));
      VisitBoolExpr(n, Some(bl), s) == Silent(if r.Ok? then Ok(Emit(r.value, l)) else r)
  {
    var l := LabelName(s.labelNo);
    var v := [(n.operands[0], BoolLabel(Some(Fall), Some(l), None)), (n.operands[1], Kept(bl))];
    var s1 := s.(labelNo := s.labelNo + 1);
    assert CopyBoolLabel(Some(NewBoolLabel(Some(Fall), Some(l)))) == v[0].1;
    assert CopyBoolLabel(Some(CopyBoolLabel(Some(bl)))) == Kept(bl);
    VisitSeqCons(v, s1);
    var left := Visit(n.operands[0], Some(v[0].1), s1);
    if left.Ok? {
      VisitSeqCons(v[1..], left.value.st);
      assert v[1..][1..] == [];
      var right := Visit(n.operands[1], Some(Kept(bl)), left.value.st);
      if right.Ok? {
        assert BoolLoop(n, 1, bl, s) == BoolLoop(n, 0, bl, Emit(right.value.st, l));
      }
    }
  }

  // ---- assignBooleanCodeGen ----

  /** The label an assignment of a boolean meets at: the inherited continuation, or the second fresh label. */
  function MeetLabel(d: Data, s: St): string
  {
    if d.Some? && d.value.next.Some? then d.value.next.value else LabelName(s.labelNo + 1)
  }

  /**
   * assignBooleanCodeGen materialises b in x: the condition's code with the
   * targets (fall, L) for the fresh label L, then `x = 1`, a jump to the meeting
   * label S, L, `x = 0` and S; the address is x. A second fresh label is used
   * only when no continuation is inherited, and then S differs from L.
   */
  lemma AssignBoolShape(b: Node, x: string, d: Data, s: St)
    requires AssignBooleanCodeGen(b, x, d, s).Ok?
    ensures var l := LabelName(s.labelNo);
      var meet := MeetLabel(d, s);
      var inherited := d.Some? && d.value.next.Some?;
      var c := Visit(b, Some(BoolLabel(Some(Fall), Some(l), None)), s.(labelNo := s.labelNo + if inherited then 1 else 2));
      var r := AssignBooleanCodeGen(b, x, d, s).value;
      && c.Ok?
      && r.addr == Some(x)
      && r.st == c.value.st.(out := c.value.st.out + [x + " = 1", "goto " + meet, l, x + " = 0", meet],
                             jumps := c.value.st.jumps + [meet])
      && (!inherited ==> meet != l)
  {
    var l := LabelName(s.labelNo);
    assert CopyBoolLabel(Some(NewBoolLabel(Some(Fall), Some(l)))) == BoolLabel(Some(Fall), Some(l), None);
    if !(d.Some? && d.value.next.Some?) {
      LabelNameInjective(s.labelNo + 1, s.labelNo);
    }
  }

  /** The boolean path of CompExpr, unfolded: both materialisations succeed and the test is over their addresses. */
  lemma CompBoolUnfold(n: Node, d: Data, s: St)
    requires n.CompExpr? && n.op.Some? && |n.operands| >= 2 && VisitComp(n, d, s).Ok?
    requires NumberComparison(LeftmostValue(n.operands[0]).value, s.table) == Ok(false)
    requires d.value.lTrue.value != Fall || d.value.lFalse.value != Fall
    ensures var a1 := AssignBooleanCodeGen(n.operands[0], TempName(s.id), d, s.(id := s.id + 1));
      && a1.Ok?
      && var a2 := AssignBooleanCodeGen(n.operands[1], TempName(a1.value.st.id), d, a1.value.st.(id := a1.value.st.id + 1));
      && a2.Ok?
      && VisitComp(n, d, s).value.st ==
           SelectJump(a2.value.st, d.value.lTrue.value, d.value.lFalse.value,
                      Text(a1.value.addr) + " " + n.op.value + " " + Text(a2.value.addr))
  {
  }

  /**
   * A boolean comparison `a op b` materialises each operand in a fresh temporary
   * with the code of assignBooleanCodeGen (laid out by AssignBoolShape): a in x1,
   * numbered by the temporary counter on entry, then b in x2, numbered after a's
   * code. Then it prints one test `x1 op x2` in the shape its targets select.
   * The two temporaries differ.
   */
  lemma BoolComparisonLines(n: Node, d: Data, s: St)
    requires n.CompExpr? && n.op.Some? && |n.operands| >= 2 && VisitComp(n, d, s).Ok?
    requires NumberComparison(LeftmostValue(n.operands[0]).value, s.table) == Ok(false)
    ensures var t, f := d.value.lTrue.value, d.value.lFalse.value;
      var x1 := TempName(s.id);
      var a1 := AssignBooleanCodeGen(n.operands[0], x1, d, s.(id := s.id + 1));
      (t != Fall || f != Fall) ==>
        && a1.Ok?
        && a1.value.addr == Some(x1)
        && var x2 := TempName(a1.value.st.id);
        && var a2 := AssignBooleanCodeGen(n.operands[1], x2, d, a1.value.st.(id := a1.value.st.id + 1));
        && a2.Ok?
        && a2.value.addr == Some(x2)
        && x1 != x2
        && VisitComp(n, d, s).value.st.out == a2.value.st.out + Properties.TestLines(t, f, x1 + " " + n.op.value + " " + x2)
  {
    var t, f := d.value.lTrue.value, d.value.lFalse.value;
    if t != Fall || f != Fall {
      CompBoolUnfold(n, d, s);
      var x1 := TempName(s.id);
      var a1 := AssignBooleanCodeGen(n.operands[0], x1, d, s.(id := s.id + 1)).value;
      var x2 := TempName(a1.st.id);
      var a2 := AssignBooleanCodeGen(n.operands[1], x2, d, a1.st.(id := a1.st.id + 1)).value;
      assert a1.addr == Some(x1) && a2.addr == Some(x2);
      Soundness.AssignBooleanCodeGenSound(n.operands[0], x1, d, s.(id := s.id + 1));
      TempNameInjective(s.id, a1.st.id);
      Properties.SelectJumpLines(a2.st, t, f, x1 + " " + n.op.value + " " + x2);
    }
  }

  /** An assignment to a Number variable prints the single line `x = a` after its value's code. */
  lemma AssignNumberShape(n: Node, d: Data, s: St)
    requires n.AssignStmt? && n.name in s.table && s.table[n.name] == Number && VisitAssign(n, d, s).Ok?
    ensures var v := Visit(n.value, d, s).value;
      && Visit(n.value, d, s).Ok?
      && VisitAssign(n, d, s) == Ok(Step(None, v.st.(out := v.st.out + [n.name + " = " + Text(v.addr)])))
  {
  }

  /** An assignment to an undeclared variable faults on its name before printing anything. */
  lemma AssignUndeclared(n: Node, d: Data, s: St)
    requires n.AssignStmt? && n.name !in s.table
    ensures VisitAssign(n, d, s) == Stuck(Undeclared(n.name))
  {
  }

  // ---- statement layouts ----

  /** The label an if-then statement is visited with: false to the exit label L, falling through when true. */
  function ThenLabel(s: St): BoolLabel
  {
    BoolLabel(Some(Fall), Some(LabelName(s.labelNo)), None)
  }

  /**
   * If without else: the condition jumps to the exit label L when false, the
   * then branch is visited with L as its continuation, and L is the last line.
   */
  lemma IfThenLayout(n: Node, d: Data, s: St)
    requires n.IfStmt? && n.elseBranch.None? && VisitIf(n, d, s).Ok?
    ensures var l := LabelName(s.labelNo);
      var c := Visit(n.cond, Some(ThenLabel(s)), s.(labelNo := s.labelNo + 1));
      && c.Ok?
      && var t := Visit(n.thenBranch, Some(ThenLabel(s).(next := Some(l))), c.value.st);
      && t.Ok?
      && VisitIf(n, d, s) == Ok(Step(None, t.value.st.(out := t.value.st.out + [l])))
  {
  }

  /**
   * If with else: the condition jumps to L when false; the then branch is
   * followed by `goto S` and L, the else branch by S, where S is the second
   * fresh label and differs from L.
   */
  lemma IfElseLayout(n: Node, d: Data, s: St)
    requires n.IfStmt? && n.elseBranch.Some? && VisitIf(n, d, s).Ok?
    ensures var l, exit := LabelName(s.labelNo), LabelName(s.labelNo + 1);
      var c := Visit(n.cond, Some(ThenLabel(s)), s.(labelNo := s.labelNo + 2));
      && c.Ok?
      && var t := Visit(n.thenBranch, Some(ThenLabel(s).(next := Some(exit))), c.value.st);
      && t.Ok?
      && var s1 := t.value.st.(out := t.value.st.out + ["goto " + exit, l], jumps := t.value.st.jumps + [exit]);
      && var e := Visit(n.elseBranch.value, Some(ThenLabel(s).(next := Some(exit))), s1);
      && e.Ok?
      && VisitIf(n, d, s) == Ok(Step(None, e.value.st.(out := e.value.st.out + [exit])))
      && l != exit
  {
    var l, exit := LabelName(s.labelNo), LabelName(s.labelNo + 1);
    assert NewBoolLabel(Some(Fall), Some(l)) == ThenLabel(s);
    var c := Visit(n.cond, Some(ThenLabel(s)), s.(labelNo := s.labelNo + 2)).value;
    var t := Visit(n.thenBranch, Some(ThenLabel(s).(next := Some(exit))), c.st).value;
    assert t.st.out + ["goto " + exit] + [l] == t.st.out + ["goto " + exit, l];
    LabelNameInjective(s.labelNo, s.labelNo + 1);
  }

  /**
   * A then branch that assigns a Bool variable inherits the exit label as its
   * continuation, so the if-then statement ends with its exit label printed
   * twice in a row.
   */
  lemma IfThenBoolAssignExitTwice(n: Node, d: Data, s: St)
    requires n.IfStmt? && n.elseBranch.None? && n.thenBranch.AssignStmt? && VisitIf(n, d, s).Ok?
    requires var c := Visit(n.cond, Some(ThenLabel(s)), s.(labelNo := s.labelNo + 1));
      c.Ok? && n.thenBranch.name in c.value.st.table && c.value.st.table[n.thenBranch.name] == Bool
    ensures var out := VisitIf(n, d, s).value.st.out;
      |out| >= 2 && out[|out| - 2] == out[|out| - 1] == LabelName(s.labelNo)
  {
    var l := LabelName(s.labelNo);
    var c := Visit(n.cond, Some(ThenLabel(s)), s.(labelNo := s.labelNo + 1)).value;
    var a := n.thenBranch;
    var dt := Some(ThenLabel(s).(next := Some(l)));
    assert NewBoolLabel(Some(Fall), Some(l)) == ThenLabel(s);
    assert MeetLabel(dt, c.st) == l;
    assert Visit(a, dt, c.st) == VisitAssign(a, dt, c.st);
    AssignBoolShape(a.value, a.name, dt, c.st);
    var r := AssignBooleanCodeGen(a.value, a.name, dt, c.st).value;
    assert VisitIf(n, d, s).value.st.out == r.st.out + [l];
  }

  /**
   * While: the loop's label `begin` is the first line, the condition jumps to
   * the exit label S when false, the body jumps to `begin` as its
   * continuation, and the statement ends with `goto begin` and S.
   */
  lemma WhileLayout(n: Node, s: St)
    requires n.WhileStmt? && VisitWhile(n, s).Ok?
    ensures var begin, exit := LabelName(s.labelNo), LabelName(s.labelNo + 1);
      var bl := BoolLabel(Some(Fall), Some(exit), Some(begin));
      var c := Visit(n.cond, Some(bl), s.(labelNo := s.labelNo + 2, out := s.out + [begin]));
      && c.Ok?
      && var b := Visit(n.body, Some(bl), c.value.st);
      && b.Ok?
      && VisitWhile(n, s) == Ok(Step(None, b.value.st.(out := b.value.st.out + ["goto " + begin, exit],
                                                     jumps := b.value.st.jumps + [begin])))
      && begin != exit
  {
    var begin, exit := LabelName(s.labelNo), LabelName(s.labelNo + 1);
    var bl := BoolLabel(Some(Fall), Some(exit), Some(begin));
    assert NewBoolLabel(Some(Fall), Some(exit)).(next := Some(begin)) == bl;
    var c := Visit(n.cond, Some(bl), s.(labelNo := s.labelNo + 2, out := s.out + [begin])).value;
    var b := Visit(n.body, Some(bl), c.st).value;
    assert b.st.out + ["goto " + begin] + [exit] == b.st.out + ["goto " + begin, exit];
    LabelNameInjective(s.labelNo, s.labelNo + 1);
  }

  /**
   * A loop body that assigns a Bool variable inherits `begin` as its
   * continuation, so the label `begin` is printed a second time, three lines
   * before the end.
   */
  lemma WhileBoolAssignBeginTwice(n: Node, s: St)
    requires n.WhileStmt? && n.body.AssignStmt? && VisitWhile(n, s).Ok?
    requires var bl := BoolLabel(Some(Fall), Some(LabelName(s.labelNo + 1)), Some(LabelName(s.labelNo)));
      var c := Visit(n.cond, Some(bl), s.(labelNo := s.labelNo + 2, out := s.out + [LabelName(s.labelNo)]));
      c.Ok? && n.body.name in c.value.st.table && c.value.st.table[n.body.name] == Bool
    ensures var out := VisitWhile(n, s).value.st.out;
      |out| >= |s.out| + 4 && out[|s.out|] == out[|out| - 3] == LabelName(s.labelNo)
  {
    var begin := LabelName(s.labelNo);
    var bl := BoolLabel(Some(Fall), Some(LabelName(s.labelNo + 1)), Some(begin));
    var s1 := s.(labelNo := s.labelNo + 2, out := s.out + [begin]);
    var c := Visit(n.cond, Some(bl), s1).value;
    var x := n.body.name;
    assert MeetLabel(Some(bl), c.st) == begin;
    assert Visit(n.body, Some(bl), c.st) == VisitAssign(n.body, Some(bl), c.st);
    AssignBoolShape(n.body.value, x, Some(bl), c.st);
    var l := LabelName(c.st.labelNo);
    var c2 := Visit(n.body.value, Some(BoolLabel(Some(Fall), Some(l), None)), c.st.(labelNo := c.st.labelNo + 1)).value;
    WhileLayout(n, s);
    Soundness.VisitSound(n.cond, Some(bl), s1);
    Soundness.VisitSound(n.body.value, Some(BoolLabel(Some(Fall), Some(l), None)), c.st.(labelNo := c.st.labelNo + 1));
    var tail := [x + " = 1", "goto " + begin, l, x + " = 0", begin, "goto " + begin, LabelName(s.labelNo + 1)];
    assert VisitWhile(n, s).value.st.out == c2.st.out + tail;
    LabelAgain(s.out, begin, c.st.out, c2.st.out, tail);
  }

  /** A label placed right after pre, and again three lines before the end. */
  lemma LabelAgain(pre: seq<string>, l: string, mid: seq<string>, mid2: seq<string>, tail: seq<string>)
    requires pre + [l] <= mid <= mid2 && |tail| >= 3 && tail[|tail| - 3] == l
    ensures var o := mid2 + tail; |o| >= |pre| + 4 && o[|pre|] == o[|o| - 3] == l
  {
    assert (pre + [l])[|pre|] == l;
  }

  // ---- the switch's test section ----

  /** The test for one case: unconditional for a default, else a compare against its value. */
  function CaseTest(temp: string, l: string, a: Option<string>): string
  {
    if a.None? then "goto " + l else "if " + temp + " == " + a.value + " goto " + l
  }

  /** The test lines for the entries k and after, in order. */
  function SwitchTestLines(temp: string, labels: seq<string>, addrs: seq<Option<string>>, k: nat): (r: seq<string>)
    requires |labels| == |addrs| && k <= |labels|
  {
    seq(|labels| - k, j requires 0 <= j < |labels| - k => CaseTest(temp, labels[k + j], addrs[k + j]))
  }

  lemma CaseTestSpelled(temp: string, l: string, v: string)
    ensures "if" + (" " + temp + " == " + v) + " goto " + l == CaseTest(temp, l, Some(v))
  {
    assert "if" + (" " + temp + " == " + v) == "if " + temp + " == " + v;
  }

  lemma SwitchTestLinesStep(temp: string, labels: seq<string>, addrs: seq<Option<string>>, k: nat)
    requires |labels| == |addrs| && k < |labels|
    ensures SwitchTestLines(temp, labels, addrs, k) == [CaseTest(temp, labels[k], addrs[k])] + SwitchTestLines(temp, labels, addrs, k + 1)
  {
    var a := SwitchTestLines(temp, labels, addrs, k);
    var b := SwitchTestLines(temp, labels, addrs, k + 1);
    forall j | 0 <= j < |b| ensures a[j + 1] == b[j] {
      assert k + (j + 1) == k + 1 + j;
    }
    assert a[1..] == b;
  }

  /**
   * The test section from entry k on prints one CaseTest per case, in case
   * order, and jumps to exactly the case labels from k on.
   */
  lemma {:induction false} SwitchTestsLines(temp: string, labels: seq<string>, addrs: seq<Option<string>>, k: nat, s: St)
    requires |labels| == |addrs| && k <= |labels|
    ensures SwitchTests(temp, labels, addrs, k, s) ==
      s.(out := s.out + SwitchTestLines(temp, labels, addrs, k), jumps := s.jumps + labels[k..])
    decreases |labels| - k
  {
    if k == |labels| {
      assert SwitchTestLines(temp, labels, addrs, k) == [] && labels[k..] == [];
    } else {
      var line := CaseTest(temp, labels[k], addrs[k]);
      if addrs[k].Some? {
        CaseTestSpelled(temp, labels[k], addrs[k].value);
      }
      var s1 := s.(out := s.out + [line], jumps := s.jumps + [labels[k]]);
      assert SwitchTests(temp, labels, addrs, k, s) == SwitchTests(temp, labels, addrs, k + 1, s1);
      SwitchTestsLines(temp, labels, addrs, k + 1, s1);
      SwitchTestLinesStep(temp, labels, addrs, k);
      assert labels[k..] == [labels[k]] + labels[k + 1..];
      assert s.out + [line] + SwitchTestLines(temp, labels, addrs, k + 1) == s.out + SwitchTestLines(temp, labels, addrs, k);
      assert s.jumps + [labels[k]] + labels[k + 1..] == s.jumps + labels[k..];
    }
  }

  /**
   * The case section from case i on keeps the labels collected so far; when a
   * case is left it starts with that case's fresh label and ends with `goto next`.
   */
  lemma {:induction false} SwitchCasesEnds(n: Node, i: nat, d: Data, next: string, labels: seq<string>, addrs: seq<Option<string>>, s: St)
    requires n.SwitchStmt? && i <= |n.kids| && |labels| == |addrs| && SwitchCases(n, i, d, next, labels, addrs, s).Ok?
    ensures var c := SwitchCases(n, i, d, next, labels, addrs, s).value;
      && |c.labels| >= |labels| && c.labels[..|labels|] == labels && s.out <= c.st.out
      && (i < |n.kids| ==>
            && c.labels[|labels|] == LabelName(s.labelNo)
            && s.out + [LabelName(s.labelNo)] <= c.st.out
            && c.st.out[|c.st.out| - 1] == "goto " + next)
    decreases |n.kids| - i
  {
    if i < |n.kids| {
      var l := LabelName(s.labelNo);
      var s1 := Emit(s.(labelNo := s.labelNo + 1), l);
      var c1 := Visit(n.kids[i], d, s1).value;
      var s2 := Goto(c1.st, next);
      var rest := SwitchCases(n, i + 1, d, next, labels + [l], addrs + [c1.addr], s2).value;
      assert SwitchCases(n, i, d, next, labels, addrs, s).value == rest;
      Soundness.VisitSound(n.kids[i], d, s1);
      SwitchCasesEnds(n, i + 1, d, next, labels + [l], addrs + [c1.addr], s2);
      CaseSectionEnds(s.out, l, c1.st.out, "goto " + next, rest.st.out, i + 1 == |n.kids|);
      assert rest.labels[..|labels| + 1] == labels + [l];
      assert rest.labels[..|labels|] == (labels + [l])[..|labels|] == labels;
    }
  }

  /** The seq bookkeeping of one case: label first, body, jump; the rest only extends it. */
  lemma CaseSectionEnds(pre: seq<string>, l: string, body: seq<string>, jump: string, all: seq<string>, last: bool)
    requires pre + [l] <= body && body + [jump] <= all && (last ==> all == body + [jump])
    ensures pre <= all && pre + [l] <= all && (last ==> all[|all| - 1] == jump)
  {
  }

  /**
   * Switch: after the selector's code, `goto test`; then the cases; then the
   * label test, the test lines of every case in order over the selector's
   * address, and the exit label last.
   */
  lemma SwitchLayout(n: Node, d: Data, s: St)
    requires n.SwitchStmt? && VisitSwitch(n, d, s).Ok?
    ensures var sel := Visit(n.selector, d, s).value;
      var test, next := LabelName(sel.st.labelNo), LabelName(sel.st.labelNo + 1);
      var s1 := sel.st.(labelNo := sel.st.labelNo + 2, out := sel.st.out + ["goto " + test], jumps := sel.st.jumps + [test]);
      var cases := SwitchCases(n, 0, d, next, [], [], s1);
      && cases.Ok?
      && var c := cases.value;
      && VisitSwitch(n, d, s) == Ok(Step(None, c.st.(out := c.st.out + [test] + SwitchTestLines(Text(sel.addr), c.labels, c.addrs, 0) + [next],
                                                      jumps := c.st.jumps + c.labels)))
  {
    var sel := Visit(n.selector, d, s).value;
    var test, next := LabelName(sel.st.labelNo), LabelName(sel.st.labelNo + 1);
    var s1 := sel.st.(labelNo := sel.st.labelNo + 2, out := sel.st.out + ["goto " + test], jumps := sel.st.jumps + [test]);
    var c := SwitchCases(n, 0, d, next, [], [], s1).value;
    SwitchTestsLines(Text(sel.addr), c.labels, c.addrs, 0, Emit(c.st, test));
    assert c.labels[0..] == c.labels;
  }
}
