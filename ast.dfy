/**
 * The typed syntax tree the generator walks, the static types of the symbol table
 * and the label record that is handed down to boolean expressions.
 */
module Ast {
  import opened Wrappers

  /** The sentinel target meaning "no jump: continue with the next instruction". */
  const Fall: string := "fall"

  /** Static type of a declared identifier. */
  datatype VarType = Bool | Number

  /**
   * The label record of the generator. Each field is a Java reference that may be
   * null; `next` is the continuation label an enclosing if or while announces.
   */
  datatype BoolLabel = BoolLabel(lTrue: Option<string>, lFalse: Option<string>, next: Option<string>)

  /** The two-argument constructor: both targets given, no continuation. */
  function NewBoolLabel(lTrue: Option<string>, lFalse: Option<string>): (b: BoolLabel)
    ensures b.lTrue == lTrue && b.lFalse == lFalse && b.next.None?
  {
    BoolLabel(lTrue, lFalse, None)
  }

  /**
   * The copy constructor: copies both targets of a non-null label and never its
   * continuation; a null label gives a label whose fields are all null.
   */
  function CopyBoolLabel(b: Option<BoolLabel>): (c: BoolLabel)
    ensures c.next.None?
    ensures b.Some? ==> c.lTrue == b.value.lTrue && c.lFalse == b.value.lFalse
    ensures b.None? ==> c.lTrue.None? && c.lFalse.None?
  {
    match b
    case None => BoolLabel(None, None, None)
    case Some(l) => BoolLabel(l.lTrue, l.lFalse, None)
  }

  /**
   * One variant per node kind the generator visits. Operators are kept as their
   * source text; `AddExpr`, `MulExpr` and `BoolExpr` hold their operands and the
   * operators between them, `UnaExpr` and `NotExpr` their prefix operators.
   * `CompExpr` has no operator when it is only a grammar layer over its first
   * operand. A `SwitchStmt` holds the selector and then its case and default nodes.
   */
  datatype Node =
    | Program(kids: seq<Node>)
    | Declaration(typeName: string, name: string)
    | Block(kids: seq<Node>)
    | Stmt(kids: seq<Node>)
    | IfStmt(cond: Node, thenBranch: Node, elseBranch: Option<Node>)
    | WhileStmt(cond: Node, body: Node)
    | AssignStmt(name: string, value: Node)
    | Expr(inner: Node)
    | AddExpr(operands: seq<Node>, ops: seq<string>)
    | MulExpr(operands: seq<Node>, ops: seq<string>)
    | UnaExpr(inner: Node, ops: seq<string>)
    | BoolExpr(operands: seq<Node>, ops: seq<string>)
    | CompExpr(operands: seq<Node>, op: Option<string>)
    | NotExpr(inner: Node, ops: seq<string>)
    | GenValue(inner: Node)
    | BoolValue(b: bool)
    | Identifier(name: string)
    | IntValue(v: int)
    | SwitchStmt(selector: Node, kids: seq<Node>)
    | CaseStmt(value: Node, body: Node)
    | DefaultStmt(kids: seq<Node>)

  /** The nodes whose visit is `childrenAccept` over `kids`. */
  predicate VisitsKids(n: Node)
  {
    n.Program? || n.Block? || n.Stmt? || n.DefaultStmt?
  }

  /**
   * The first child a JavaCC node would give for `jjtGetChild(0)`, or None where
   * that call throws. A declaration's or an assignment's first child is an
   * identifier, which has no child in turn, so for the descent below they end it
   * just as the identifier would.
   */
  function FirstChild(n: Node): Option<Node>
  {
    match n
    case Program(k) => if |k| == 0 then None else Some(k[0])
    case Declaration(_, _) => None
    case Block(k) => if |k| == 0 then None else Some(k[0])
    case Stmt(k) => if |k| == 0 then None else Some(k[0])
    case IfStmt(c, _, _) => Some(c)
    case WhileStmt(c, _) => Some(c)
    case AssignStmt(_, _) => None
    case Expr(i) => Some(i)
    case AddExpr(o, _) => if |o| == 0 then None else Some(o[0])
    case MulExpr(o, _) => if |o| == 0 then None else Some(o[0])
    case UnaExpr(i, _) => Some(i)
    case BoolExpr(o, _) => if |o| == 0 then None else Some(o[0])
    case CompExpr(o, _) => if |o| == 0 then None else Some(o[0])
    case NotExpr(i, _) => Some(i)
    case GenValue(i) => Some(i)
    case BoolValue(_) => None
    case Identifier(_) => None
    case IntValue(_) => None
    case SwitchStmt(s, _) => Some(s)
    case CaseStmt(v, _) => Some(v)
    case DefaultStmt(k) => if |k| == 0 then None else Some(k[0])
  }
}
