# Intermediate code generation with fall-through jumping code

This project models the visitor `IntermediateCodeGenFallVisitor`. It walks a
typed syntax tree of a small imperative language and prints three-address code:

- arithmetic becomes one `t = a op b` line per operator, using fresh temporaries `_t<n>`;
- conditions become jumping code over fresh labels `_L<n>`;
- the target `fall` means "no jump, fall through to the next line".

The model has three layers:

- **`Lowering`**: pure functions, one per visit. Each takes the generator state
  `St(id, labelNo, table, out, jumps)` and returns the address the Java method
  returns (null as `None`) together with the new state.
  - A Java exception becomes `Stuck(fault)`: a name missing from the symbol
    table, a null label record or label field, or a child missing from the tree.
  - `jumps` records the target of every jump printed, in order. It is bookkeeping
    for the proofs and is not output. Each recorded target belongs to one printed
    line that ends in `goto` and that target (`RecordedJumpsArePrinted`, `GotoPrinted`).
- **`Generator.CodeGenerator`**: the visitor as a class. Its fields are the two
  counters, the symbol table and the lines printed. There is one method per
  visit, with the loops of the source, and each is proved to leave exactly the
  state its `Lowering` function computes.
  - The methods' preconditions state what the source assumes of its input:
    identifiers are declared before use (`SymbolTable.get` is unchecked), and
    `data` is a label record wherever it is cast.
- **`Soundness`, `Properties`, `Shapes`, `Names`**: the properties of the lowering.
  - Every jump lands on a printed label, and none goes to `fall`.
  - Arithmetic has a closed form.
  - The jump shapes, the `||`/`&&` and `!` label plumbing, boolean
    materialisation, and the if, while and switch layouts.
  - The naming scheme is injective.

The quirks of the code are modelled as written:

- The `||`/`&&` loop revisits every inner operand.
- `!` visits its operand once per `!`.
- The copy constructor of `BoolLabel` drops `next`.
- An assignment of a boolean prints an inherited continuation label itself, so
  that label can be placed twice.

Lemmas below state each of these quirks.

## Model

| member | source | states |
|---|---|---|
| Generator.CodeGenerator.GenId | src/analyzer/visitors/IntermediateCodeGenFallVisitor.java:42-44 | returns `_t` followed by the current counter and advances only `id`, by one |
| Generator.CodeGenerator.GenLabel | src/analyzer/visitors/IntermediateCodeGenFallVisitor.java:47-49 | returns `_L` followed by the current counter and advances only `label`, by one |
| Names.TempNameInjective | src/analyzer/visitors/IntermediateCodeGenFallVisitor.java:42-44 | two temporaries are equal only if their counter values are, so the temporaries of a run are pairwise distinct |
| Names.LabelNameInjective | src/analyzer/visitors/IntermediateCodeGenFallVisitor.java:47-49 | two labels are equal only if their counter values are, so the labels of a run are pairwise distinct |
| Names.NatToStringInjective | src/analyzer/visitors/IntermediateCodeGenFallVisitor.java:42-49 | distinct counter values have distinct decimal spellings |
| Names.TempNameIsNotLabelName | src/analyzer/visitors/IntermediateCodeGenFallVisitor.java:42-49 | no temporary has a label's name |
| Names.LabelNameIsNotFall | src/analyzer/visitors/IntermediateCodeGenFallVisitor.java:47-49 | no generated label is the sentinel `fall` |
| Names.IntToString | src/analyzer/visitors/IntermediateCodeGenFallVisitor.java:506-508 | the text of an integer literal is never empty and starts with `-` exactly when the value is negative |
| Names.IntToStringDigits | src/analyzer/visitors/IntermediateCodeGenFallVisitor.java:506-508 | every character of a literal's text after its sign is a decimal digit |
| Names.IntToStringInjective | src/analyzer/visitors/IntermediateCodeGenFallVisitor.java:506-508 | different integer literals have different texts |
| Ast.NewBoolLabel | src/analyzer/visitors/IntermediateCodeGenFallVisitor.java:559-562 | a label record with the given targets and no continuation |
| Ast.CopyBoolLabel | src/analyzer/visitors/IntermediateCodeGenFallVisitor.java:564-569 | copies both targets of a non-null record and never its continuation; a null record gives all-null fields |
| Generator.CodeGenerator.Visit | src/analyzer/visitors/IntermediateCodeGenFallVisitor.java:253-256 | dispatch on the node's kind; Expr and GenValue forward to their child, IntValue returns its literal; the new state and result are those of `Lowering.Visit` |
| Generator.CodeGenerator.VisitChildren | src/analyzer/visitors/IntermediateCodeGenFallVisitor.java:80-84 | Program, Block, Stmt and Default visit every child in order with the same data and return null |
| Generator.CodeGenerator.ChildrenAccept | src/analyzer/visitors/IntermediateCodeGenFallVisitor.java:57-60 | the `childrenAccept` loop leaves the state of `Lowering.ChildrenAccept` |
| Generator.CodeGenerator.VisitDeclaration | src/analyzer/visitors/IntermediateCodeGenFallVisitor.java:68-78 | records `bool` as Bool and any other type as Number, prints nothing, returns null |
| Properties.DeclarationThenUse | src/analyzer/visitors/IntermediateCodeGenFallVisitor.java:68-78 | after a declaration the name is in the table; a Number variable is then its own address and a Bool one no longer faults as undeclared |
| Generator.CodeGenerator.GenCodeRelTestJump | src/analyzer/visitors/IntermediateCodeGenFallVisitor.java:350-359 | prints the jump lines of `Lowering.RelTestJump` |
| Properties.RelTestJumpCounts | src/analyzer/visitors/IntermediateCodeGenFallVisitor.java:350-359 | two lines when both labels are given, one when one is, none otherwise; only the output changes, and the jumps go to exactly the given labels |
| Properties.RecordedJumpsArePrinted | src/analyzer/visitors/IntermediateCodeGenFallVisitor.java:350-359 | genCodeRelTestJump prints exactly one line per jump it records, and each of those lines ends in `goto` followed by its target |
| Properties.GotoPrinted | src/analyzer/visitors/IntermediateCodeGenFallVisitor.java:114 | a `goto` prints one line ending in a jump to its target and records that target |
| Generator.CodeGenerator.SelectJump | src/analyzer/visitors/IntermediateCodeGenFallVisitor.java:398-413 | prints the test in the shape of `Lowering.SelectJump`: with both targets real, only the true one, only the false one (inverted), or neither (`error`) |
| Properties.SelectJumpLines | src/analyzer/visitors/IntermediateCodeGenFallVisitor.java:398-438 | the shape choice prints `if c goto T; goto F`, `if c goto T` or `ifFalse c goto F`, jumps only to the targets that are not `fall`, and prints `error` exactly when both are `fall` |
| Properties.RealTargets | src/analyzer/visitors/IntermediateCodeGenFallVisitor.java:398-438 | the targets a test jumps to never include `fall` |
| Generator.CodeGenerator.LeftmostValue | src/analyzer/visitors/IntermediateCodeGenFallVisitor.java:384-388 | the `while` down the first children stops at the first GenValue and yields the node under it |
| Generator.CodeGenerator.NumberComparison | src/analyzer/visitors/IntermediateCodeGenFallVisitor.java:389-396 | the leaf classification yields exactly the verdict of `Lowering.NumberComparison` |
| Properties.NumberComparisonMeans | src/analyzer/visitors/IntermediateCodeGenFallVisitor.java:389-396 | a comparison is numeric exactly when its leftmost leaf is an integer literal or a Number variable; it faults exactly on an undeclared identifier |
| Generator.CodeGenerator.VisitComp | src/analyzer/visitors/IntermediateCodeGenFallVisitor.java:379-440 | with no operator forwards to the child; otherwise classifies the leftmost leaf, evaluates two numbers or materialises two booleans in fresh temporaries, and prints the test |
| Shapes.BoolComparisonLines | src/analyzer/visitors/IntermediateCodeGenFallVisitor.java:414-437 | a boolean comparison materialises its left operand in the temporary x1 numbered on entry and its right one in a second temporary x2 numbered after the left operand's code, both with assignBooleanCodeGen; x1 and x2 differ; it then prints the single test `x1 op x2` in the shape its targets select |
| Properties.CompBothFall | src/analyzer/visitors/IntermediateCodeGenFallVisitor.java:434-436 | a comparison whose targets are both `fall` prints exactly `error` and evaluates no operand |
| Properties.NumericComparisonLines | src/analyzer/visitors/IntermediateCodeGenFallVisitor.java:398-415 | a numeric comparison prints the operands' code, then the test `a op b` in the shape its targets select |
| Soundness.CompSound | src/analyzer/visitors/IntermediateCodeGenFallVisitor.java:379-440 | a comparison jumps only to its real inherited targets or to labels it prints, and never to `fall` |
| Soundness.SelectJumpSound | src/analyzer/visitors/IntermediateCodeGenFallVisitor.java:398-415 | the three shapes jump only to real targets and never to `fall` |
| Generator.CodeGenerator.VisitBoolValue | src/analyzer/visitors/IntermediateCodeGenFallVisitor.java:470-478 | prints the direct jump of `Lowering.VisitBoolValue` |
| Properties.BoolValueLines | src/analyzer/visitors/IntermediateCodeGenFallVisitor.java:470-478 | it succeeds exactly when the selected target is present; it prints at most one `goto`, to that target, and none when the target is `fall` |
| Soundness.BoolValueSound | src/analyzer/visitors/IntermediateCodeGenFallVisitor.java:470-478 | a literal never jumps to `fall` and only to its real inherited targets |
| Generator.CodeGenerator.VisitIdentifier | src/analyzer/visitors/IntermediateCodeGenFallVisitor.java:487-503 | a Number variable is its own address; a Bool one prints its `x == 1` test |
| Properties.IdentifierLines | src/analyzer/visitors/IntermediateCodeGenFallVisitor.java:487-503 | faults exactly on an undeclared name; a Number variable returns its name and prints nothing; a Bool one prints the test `x == 1` in the shape its targets select |
| Soundness.IdentifierSound | src/analyzer/visitors/IntermediateCodeGenFallVisitor.java:487-503 | an identifier never jumps to `fall` and only to its real inherited targets |
| Generator.CodeGenerator.ExprCodeGen | src/analyzer/visitors/IntermediateCodeGenFallVisitor.java:266-276 | the left fold over the operators with its result-chaining loop; Add and Mul both use it |
| Generator.CodeGenerator.ExprRound | src/analyzer/visitors/IntermediateCodeGenFallVisitor.java:269-274 | one round of the loop leaves exactly the state from which the fold continues with the fresh temporary as its accumulator |
| Properties.ExprFoldLeaves | src/analyzer/visitors/IntermediateCodeGenFallVisitor.java:268-274 | over leaf operands the loop from operator i prints exactly the FoldLines `t_j = prev op_j a_j`, takes one fresh temporary per operator, and yields the last one |
| Properties.ExprCodeGenLeaves | src/analyzer/visitors/IntermediateCodeGenFallVisitor.java:266-276 | k operators over leaves give exactly k lines with k fresh temporaries, each using the previous result; the last temporary is returned, or the first operand's address with no output when k = 0 |
| Properties.FoldLinesStep | src/analyzer/visitors/IntermediateCodeGenFallVisitor.java:268-274 | the first fold line followed by the fold of the rest, chained through the first temporary, is the whole fold |
| Properties.ExprCodeGenNoOps | src/analyzer/visitors/IntermediateCodeGenFallVisitor.java:266-276 | with no operator exprCodeGen is exactly the visit of its first child |
| Properties.ExprFoldResult | src/analyzer/visitors/IntermediateCodeGenFallVisitor.java:268-274 | over any operands the loop allocates at least one temporary per operator and returns the last one allocated |
| Properties.VisitLeaf | src/analyzer/visitors/IntermediateCodeGenFallVisitor.java:505-508 | a literal or Number variable prints nothing and returns its text |
| Generator.CodeGenerator.VisitUna | src/analyzer/visitors/IntermediateCodeGenFallVisitor.java:290-300 | the operand, then the result-chaining loop over the prefix operators |
| Properties.UnaFoldClosed | src/analyzer/visitors/IntermediateCodeGenFallVisitor.java:293-298 | the loop from operator i prints exactly the UnaLines `t_j = op_j prev`, one fresh temporary each, and yields the last one |
| Properties.UnaLayout | src/analyzer/visitors/IntermediateCodeGenFallVisitor.java:290-300 | UnaExpr prints its operand's code, then one line per operator over the operand's address, and returns the last temporary, or the operand's address when there is no operator |
| Properties.UnaLinesStep | src/analyzer/visitors/IntermediateCodeGenFallVisitor.java:293-298 | the first line followed by the lines of the rest is the whole UnaLines |
| Generator.CodeGenerator.VisitBoolExpr | src/analyzer/visitors/IntermediateCodeGenFallVisitor.java:310-344 | the reversed operator loop with the same inherited record in every round |
| Shapes.BoolLoopVisits | src/analyzer/visitors/IntermediateCodeGenFallVisitor.java:314-342 | when no round needs a fresh label, the loop from round i down is exactly the run of BoolVisits: operand r - 1 with the operator's left label, then operand r with the inherited targets |
| Shapes.BoolExprVisits | src/analyzer/visitors/IntermediateCodeGenFallVisitor.java:310-344 | a chain whose rounds need no fresh label visits, for r = k down to 1, the operands r - 1 and r, prints nothing of its own and returns null |
| Shapes.BoolRound | src/analyzer/visitors/IntermediateCodeGenFallVisitor.java:315-341 | one round of any chain: a null target read by the operator faults; otherwise the left operand with (target, fall) for `\|\|` or (fall, target) for `&&`, a `fall` target replaced by a fresh label l taken before the visits, then the right operand with the inherited pair, then l placed when one was taken |
| Shapes.InnerOperandTwice | src/analyzer/visitors/IntermediateCodeGenFallVisitor.java:314-342 | in every chain, fresh labels or not, each inner operand k is visited twice on the real loop: as the left operand of round k + 1, then again with the inherited pair as the right operand of round k, after operand k + 1 |
| Shapes.SingleOrFresh | src/analyzer/visitors/IntermediateCodeGenFallVisitor.java:315-324 | a single `\|\|` with inherited true target `fall` allocates one label l, gives the left operand (l, fall) and the right one the inherited pair, and places l after both |
| Shapes.SingleAndFresh | src/analyzer/visitors/IntermediateCodeGenFallVisitor.java:328-337 | the mirror image for `&&`: the left operand gets (fall, l) |
| Shapes.BoolVisitsTail | src/analyzer/visitors/IntermediateCodeGenFallVisitor.java:314-342 | the rounds from i down are round i followed by the rounds from i - 1 down |
| Soundness.BoolExprSound | src/analyzer/visitors/IntermediateCodeGenFallVisitor.java:310-344 | the chain jumps only to the inherited real targets or to the labels it places, never to `fall` |
| Soundness.BoolLoopSound | src/analyzer/visitors/IntermediateCodeGenFallVisitor.java:314-342 | every round keeps the same guarantee: jumps to the record's real targets or placed labels, never to `fall` |
| Generator.CodeGenerator.VisitNot | src/analyzer/visitors/IntermediateCodeGenFallVisitor.java:448-458 | the swap loop over the `!` operators |
| Shapes.NotLoopVisits | src/analyzer/visitors/IntermediateCodeGenFallVisitor.java:452-456 | the loop from operator i is exactly the run of the remaining NotVisits, each with the previous pair swapped |
| Shapes.NotShape | src/analyzer/visitors/IntermediateCodeGenFallVisitor.java:448-458 | zero `!` forward the inherited data unchanged; k > 0 visit the operand k times, alternating from swapped, and return null; a null record faults |
| Shapes.NotParity | src/analyzer/visitors/IntermediateCodeGenFallVisitor.java:452-456 | the last visit gets the swapped pair exactly when the number of `!` is odd, and every visit is of the operand |
| Shapes.NotVisitsTail | src/analyzer/visitors/IntermediateCodeGenFallVisitor.java:452-456 | the first visit is swapped, and the rest are the visits for the swapped pair |
| Soundness.NotLoopSound | src/analyzer/visitors/IntermediateCodeGenFallVisitor.java:452-456 | every round of the swap loop keeps the jump guarantee for the swapped pair |
| Soundness.NotSound | src/analyzer/visitors/IntermediateCodeGenFallVisitor.java:448-458 | swapping hands down the same real targets, so `!` keeps the jump guarantee |
| Generator.CodeGenerator.VisitAssign | src/analyzer/visitors/IntermediateCodeGenFallVisitor.java:224-233 | a Number destination prints `x = a`; a Bool one goes through assignBooleanCodeGen |
| Shapes.AssignNumberShape | src/analyzer/visitors/IntermediateCodeGenFallVisitor.java:227-228 | a Number destination prints exactly `x = <address>` after the value's own lines |
| Shapes.AssignUndeclared | src/analyzer/visitors/IntermediateCodeGenFallVisitor.java:226-227 | an undeclared destination faults on its name |
| Generator.CodeGenerator.AssignBooleanCodeGen | src/analyzer/visitors/IntermediateCodeGenFallVisitor.java:235-249 | materialises a condition in x through the state of `Lowering.AssignBooleanCodeGen` |
| Shapes.AssignBoolShape | src/analyzer/visitors/IntermediateCodeGenFallVisitor.java:235-249 | the condition with (fall, L) for a fresh L, then exactly `x = 1`, `goto S`, L, `x = 0`, S, where S is the inherited continuation or a second fresh label different from L; returns x |
| Soundness.AssignBooleanCodeGenSound | src/analyzer/visitors/IntermediateCodeGenFallVisitor.java:235-249 | every jump it prints lands on a label it prints or on S, and none goes to `fall` unless the inherited continuation is `fall` |
| Soundness.AssignSound | src/analyzer/visitors/IntermediateCodeGenFallVisitor.java:224-233 | an assignment keeps the jump guarantee |
| Generator.CodeGenerator.VisitIf | src/analyzer/visitors/IntermediateCodeGenFallVisitor.java:95-121 | if-then and if-then-else with the label reuse of the source |
| Shapes.IfThenLayout | src/analyzer/visitors/IntermediateCodeGenFallVisitor.java:97-105 | the condition gets (fall, S), the then branch gets S as continuation, and S is the last line |
| Shapes.IfElseLayout | src/analyzer/visitors/IntermediateCodeGenFallVisitor.java:106-119 | after the then branch `goto S` and the false label L, then the else branch, then S; L differs from S |
| Shapes.IfThenBoolAssignExitTwice | src/analyzer/visitors/IntermediateCodeGenFallVisitor.java:103-105 | a then branch assigning a Bool variable prints the exit label itself, so it appears twice in a row at the end |
| Soundness.IfSound | src/analyzer/visitors/IntermediateCodeGenFallVisitor.java:95-121 | every jump of an if statement lands on a label it prints, and none goes to `fall` |
| Generator.CodeGenerator.VisitWhile | src/analyzer/visitors/IntermediateCodeGenFallVisitor.java:123-137 | the loop layout with `begin` as the continuation |
| Shapes.WhileLayout | src/analyzer/visitors/IntermediateCodeGenFallVisitor.java:125-136 | `begin` first; the condition gets (fall, S) with continuation `begin`; it ends with `goto begin` and S, two different labels |
| Shapes.WhileBoolAssignBeginTwice | src/analyzer/visitors/IntermediateCodeGenFallVisitor.java:130-134 | a body assigning a Bool variable places `begin` a second time, three lines before the end |
| Soundness.WhileSound | src/analyzer/visitors/IntermediateCodeGenFallVisitor.java:123-137 | every jump of a loop lands on a label it prints, and none goes to `fall` |
| Generator.CodeGenerator.VisitSwitch | src/analyzer/visitors/IntermediateCodeGenFallVisitor.java:511-533 | the selector, then the two loops of the switch |
| Generator.CodeGenerator.SwitchCases | src/analyzer/visitors/IntermediateCodeGenFallVisitor.java:518-524 | the first loop: label, case, `goto next`, collecting labels and values |
| Generator.CodeGenerator.SwitchTests | src/analyzer/visitors/IntermediateCodeGenFallVisitor.java:526-529 | the second loop: one test per case |
| Shapes.SwitchTestsLines | src/analyzer/visitors/IntermediateCodeGenFallVisitor.java:526-529 | the test section prints, in case order, `goto L` for a default and `if sel == v goto L` otherwise, and jumps to exactly the case labels |
| Shapes.SwitchTestLinesStep | src/analyzer/visitors/IntermediateCodeGenFallVisitor.java:526-529 | the test lines from k are the test of case k followed by those from k + 1 |
| Shapes.SwitchCasesEnds | src/analyzer/visitors/IntermediateCodeGenFallVisitor.java:518-524 | the case section keeps the labels collected so far, starts with the first case's fresh label and ends with `goto next` |
| Shapes.SwitchLayout | src/analyzer/visitors/IntermediateCodeGenFallVisitor.java:511-533 | after the selector `goto test`, the cases, the label test, the test lines over the selector's address, and `next` last |
| Soundness.SwitchSound | src/analyzer/visitors/IntermediateCodeGenFallVisitor.java:511-533 | every jump of a switch lands on a label it prints or on an inherited real target |
| Soundness.SwitchCasesSound | src/analyzer/visitors/IntermediateCodeGenFallVisitor.java:518-524 | the collected labels are printed, are not `fall`, and the jumps go to them, to `next` or to real inherited targets |
| Soundness.SwitchTestsJumps | src/analyzer/visitors/IntermediateCodeGenFallVisitor.java:526-529 | the tests jump to exactly the remaining case labels, in order |
| Generator.CodeGenerator.VisitCase | src/analyzer/visitors/IntermediateCodeGenFallVisitor.java:535-539 | the body, then the case's value as the result |
| Soundness.CaseSound | src/analyzer/visitors/IntermediateCodeGenFallVisitor.java:535-539 | a case keeps the jump guarantee |
| Soundness.VisitSound | src/analyzer/visitors/IntermediateCodeGenFallVisitor.java:52-545 | every visit only adds output, jumps only to labels it prints or to the real targets it was handed, and, unless its continuation is `fall`, never to `fall` |
| Soundness.ExprFoldSound | src/analyzer/visitors/IntermediateCodeGenFallVisitor.java:268-274 | every round of the arithmetic loop only adds output and keeps the jump guarantee |
| Soundness.ExprCodeGenSound | src/analyzer/visitors/IntermediateCodeGenFallVisitor.java:266-276 | arithmetic keeps the jump guarantee |
| Soundness.UnaSound | src/analyzer/visitors/IntermediateCodeGenFallVisitor.java:290-300 | a unary expression keeps the jump guarantee |
| Soundness.VisitChildrenSound | src/analyzer/visitors/IntermediateCodeGenFallVisitor.java:80-90 | visiting the children in order keeps the jump guarantee |
| Soundness.ChildrenAcceptSound | src/analyzer/visitors/IntermediateCodeGenFallVisitor.java:57-60 | the children loop from any index keeps the jump guarantee |
| Soundness.ProgramJumpsLand | src/analyzer/visitors/IntermediateCodeGenFallVisitor.java:56-60 | for a whole program visited without a label record, every jump target is a label printed in the output and none is `fall` |

## Left out

- The `PrintWriter` sink is modelled as the sequence of lines printed. There is no file I/O.
- The JavaCC plumbing is replaced by pattern matching over the `Node` datatype:
  - `jjtAccept`, `childrenAccept` and the `Object` results;
  - the `SimpleNode` fallback visit, which no modelled node kind reaches.
- The unused imports are left out.
- Parsing and type checking happen before this visitor. The tree and the declarations are inputs.
- The emitted code is never executed here, so the model gives it no execution semantics.
- `int` counters and literals are unbounded: Java's 32-bit wrap-around of `id`, `label` and `IntValue` is not modelled.
- `Integer.toString` is modelled by a plain decimal rendering with a leading `-` for negatives.
- The class methods require their `Lowering` function to succeed. That premise is how the source's assumptions are stated: declared identifiers, non-null label records, and well-formed trees. The faulting paths are modelled in `Lowering` only.
- The two loops of `visit(ASTSwitchStmt)` are the methods `SwitchCases` and `SwitchTests`. The `ArrayList`s they fill are sequences.
- `jumps` is a ghost field. It records what each printed jump targets and is not part of the output.
- Shapes.BoolExprVisits: gives the closed form of a whole run only for chains whose rounds need no fresh label. With fresh labels, each round is given by BoolRound, the revisit by InnerOperandTwice, and the jump guarantee by BoolExprSound.
- Properties.ExprCodeGenLeaves: gives the closed form only for leaf operands, literals and Number variables. For other operands ExprFoldResult gives the count and the result, and ExprCodeGenSound gives the jump guarantee.
- Shapes.SwitchLayout: spells out the test section and the ends of the case section. The case bodies are described by SwitchCasesSound and SwitchCasesEnds, not written out line by line.
