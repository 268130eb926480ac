# Truthiness normalisation in the Handlebars compiler

This project models the truthiness-normalisation pass of a Handlebars-style
template compiler (`BoolishConverter`). The parser wraps every expression that
decides a branch — the subject of `{{#if}}`, of `{{^x}}` inversions and of a
block's implicit condition — in a Boolish marker. The pass walks the compiled
expression tree and replaces each marker with a call of one predicate,
`HandlebarsUtils.IsTruthyOrNonEmpty`, applied to the rewritten condition. Block,
unary, method-call and conditional nodes are rebuilt with the same shape and
their children rewritten. Every other node is returned as it is.

Modules:

- `Wrappers`: `Option`, standing for a reference that may be null (a static
  call's missing receiver).
- `Expressions`: the expression tree `Expr`, the constant `TruthyPredicate`, and
  three measures over trees: Boolish markers (`CountBoolish`, `NoBoolish`),
  calls of the truthiness predicate (`CountTruthyCalls`) and nodes (`Size`).
- `BoolishConverter`: the pass (`Convert`, and `ConvertAll` for child lists,
  which stands for `Select(Visit)`), with lemmas on what it does to whole trees.
  `Convert`'s contract is stated through a node's head (its kind and non-child
  fields, `HeadOf`) and its ordered children (`Children`). The lemma
  `HeadAndChildrenDetermineNode` shows those two fix a node, so the contract
  determines the result.
- `Truthiness`: the values a condition can produce, and the constraint
  `TestBacked` that the inversion tests put on the truthiness predicate.
- `Semantics`: a meaning for trees (`Eval`), given an interpretation of the parts
  the tree does not fix. It is used to prove that the pass preserves meaning.

The body of `IsTruthyOrNonEmpty` is not part of this model. It is the parameter
`truthy` of an interpretation. The only facts assumed of it are the four that the
inversion tests fix (`TestBacked`). `ReferenceTruthiness` is one predicate meeting
them. It shows that the constraint is satisfiable, and it is not a claim about the
real body.

Modelling assumptions:

- Node kinds the pass does not override are handled by the base visitor
  `HandlebarsExpressionVisitor`. That file is not part of this model. Such nodes
  are modelled as opaque `Other` leaves, which the pass returns unchanged.
- A Boolish marker's meaning is the truthiness of its condition's value. The
  predicate method's meaning is the interpretation's `truthy`
  (`TruthyCallMeansTruthy`).

## Model

| member | source | states |
|---|---|---|
| BoolishConverter.Convert | source/Handlebars.Core/Compiler/Translation/Expressions/BoolishConverter.cs:14-65 | a Boolish marker becomes a static call (no receiver) of the truthiness predicate with one argument; a block keeps its result type and variables, a unary node its operator and type, a call its method and whether it has a receiver, a conditional and an untouched node kind stay as they are; the children stay in number and order (a conditional's test, then- and else-branch are never swapped), each replaced by its own rewrite |
| BoolishConverter.ConvertAll | source/Handlebars.Core/Compiler/Translation/Expressions/BoolishConverter.cs:40-56 | rewriting a child list (the `Select` calls at lines 40 and 56) keeps its length and order: element i of the output is the rewrite of element i of the input |
| BoolishConverter.ConvertRemovesBoolish | source/Handlebars.Core/Compiler/Translation/Expressions/BoolishConverter.cs:14-65 | the result of the pass contains no Boolish marker anywhere |
| BoolishConverter.ConvertAllRemovesBoolish | source/Handlebars.Core/Compiler/Translation/Expressions/BoolishConverter.cs:40-56 | no rewritten element of a child list contains a Boolish marker |
| BoolishConverter.ConvertAddsOneTruthyCallPerBoolish | source/Handlebars.Core/Compiler/Translation/Expressions/BoolishConverter.cs:24-65 | the rewritten tree has exactly one truthiness-predicate call per Boolish marker of the input, plus the predicate calls the input already had |
| BoolishConverter.ConvertAllAddsOneTruthyCallPerBoolish | source/Handlebars.Core/Compiler/Translation/Expressions/BoolishConverter.cs:40-56 | the same count, over a child list |
| BoolishConverter.ConvertPreservesSize | source/Handlebars.Core/Compiler/Translation/Expressions/BoolishConverter.cs:24-65 | the pass neither drops nor adds nodes: each marker is traded for one call node and every other node is rebuilt |
| BoolishConverter.ConvertAllPreservesSize | source/Handlebars.Core/Compiler/Translation/Expressions/BoolishConverter.cs:40-56 | the same, over a child list |
| BoolishConverter.ConvertKeepsBoolishFree | source/Handlebars.Core/Compiler/Translation/Expressions/BoolishConverter.cs:35-65 | a tree with no Boolish marker is returned unchanged |
| BoolishConverter.ConvertAllKeepsBoolishFree | source/Handlebars.Core/Compiler/Translation/Expressions/BoolishConverter.cs:40-56 | a child list with no Boolish marker is returned unchanged |
| BoolishConverter.ConvertIsIdentityIffBoolishFree | source/Handlebars.Core/Compiler/Translation/Expressions/BoolishConverter.cs:14-65 | the pass leaves a tree unchanged if and only if the tree has no Boolish marker |
| BoolishConverter.ConvertIdempotent | source/Handlebars.Core/Compiler/Translation/Expressions/BoolishConverter.cs:14-17 | running the pass twice gives the same tree as running it once |
| Truthiness.TestBacked | source/Handlebars.Core.Test/HelperTests.cs:57-111 | the constraint on the truthiness predicate: a missing key, `false` and an empty sequence are falsy, and a sequence holding one string is truthy |
| Truthiness.ReferenceTruthiness | source/Handlebars.Core.Test/HelperTests.cs:57-111 | a witness classification in which exactly absent, `false`, the empty string and the empty sequence are falsy |
| Truthiness.ReferenceTruthinessMeetsTests | source/Handlebars.Core.Test/HelperTests.cs:57-111 | the reference classification meets every fact the inversion tests fix, so those facts are consistent |
| Semantics.ConvertPreservesMeaning | source/Handlebars.Core/Compiler/Translation/Expressions/BoolishConverter.cs:24-65 | when the predicate method computes truthiness, the rewritten tree has the same value as the original, in which a marker means the truthiness of its condition |
| Semantics.ConvertAllPreservesMeaning | source/Handlebars.Core/Compiler/Translation/Expressions/BoolishConverter.cs:40-56 | rewritten argument lists evaluate to the same values, in the same order |
| Semantics.LoweredConditionOnTestValues | source/Handlebars.Core.Test/HelperTests.cs:57-111 | a lowered inversion condition on a key is false when the key is missing, `false` or an empty sequence, and true when it holds a sequence of one string |

## Left out

- The compile and render pipeline (tokenizer, parser, helper dispatch, helper registration, rendering) is not part of this model. The tests serve only as evidence for the truthiness predicate.
- The body of `HandlebarsUtils.IsTruthyOrNonEmpty` is not part of this model. Only the four facts the inversion tests fix are assumed of it. Empty strings, numbers and other objects are left unconstrained.
- `TestBacked` constrains one-element sequences only when the element is a string, as in the test. A sequence holding one null or one non-string value is left unconstrained.
- `HandlebarsExpressionVisitor` is not part of this model. The pass is modelled only as the identity on the node kinds it does not override. In the host library the default traversal of some of those kinds (binary nodes, lambdas) visits their children, so a marker nested inside them would also be rewritten. The model assumes such nodes are opaque leaves.
- The factory checks of the host expression library are left out: `Expression.Call` argument type checks, `Expression.Block` rejecting an empty list, and `MakeUnary`/`Condition` operand checks. They throw on ill-typed trees. The model rebuilds any tree.
- Two overrides rebuild nodes without some of their fields. The model's nodes lack those fields, so "returned unchanged" and "only the operand is rewritten" hold in the model but not always in the host library:
  - `VisitConditional` (BoolishConverter.cs:59-65) uses the three-argument `Expression.Condition`, which drops the node's explicit type. A void `IfThen(test, e)` whose `e` is not void then makes the factory throw. An explicitly typed conditional comes back with its type taken from the then-branch. The model's `Conditional` has no type.
  - `VisitUnary` (BoolishConverter.cs:43-49) calls `MakeUnary` without the node's operator method, so a user-defined operator method is looked up again rather than kept. The model's `Unary` has no method.
- Reflection (`GetMethodInfo`, `.Method`) and the `netstandard` build switch are left out. Both branches name the same method, modelled as the constant `TruthyPredicate`.
- Object identity is left out. The host visitor may return the very same node object when nothing changed, while the model compares trees by value.
- `CompilationContext` is only forwarded to the base class. It plays no part in the pass.
- Output formatting is left out: writer formatting, safe-string writes, and the rendering of numeric literals such as `-98.76`. These involve I/O and floating point. Numbers are modelled as integers.
- `Semantics.Eval` gives a block the value of its last expression and ignores its variables. Assignment and side effects are not modelled.
