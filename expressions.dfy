/**
  The compiled expression tree the truthiness-normalisation pass walks.

  Only the node kinds the pass recognises are modelled with their children:
  the Boolish marker, blocks, unary nodes, method calls and conditionals.
  Every other node kind is an opaque `Other` leaf.
*/
module Expressions {
  import opened Wrappers

  /** A host type, as carried by a block's or a unary node's `Type`. */
  datatype ClrType = ClrType(name: string)

  /** A block-scoped variable (a parameter expression of a block). */
  datatype Variable = Variable(name: string, ty: ClrType)

  /** The node type (operator kind) of a unary node. */
  datatype UnaryOp = Not | Negate | Conversion | TypeAs | OtherUnary(name: string)

  /** A method a call node invokes, identified by its declaring type and name. */
  datatype MethodRef = MethodRef(declaringType: string, name: string)

  /** The single truthiness predicate every Boolish marker is lowered to. */
  const TruthyPredicate: MethodRef := MethodRef("HandlebarsUtils", "IsTruthyOrNonEmpty")

  datatype Expr =
    | Boolish(condition: Expr)
    | Block(ty: ClrType, variables: seq<Variable>, body: seq<Expr>)
    | Unary(op: UnaryOp, operand: Expr, ty: ClrType)
    | Call(receiver: Option<Expr>, callee: MethodRef, arguments: seq<Expr>)
    | Conditional(test: Expr, ifTrue: Expr, ifFalse: Expr)
    | Other(node: nat)

  /** A node with its children taken out: the node kind and every field
      that is not a child expression. */
  datatype Head =
    | BoolishHead
    | BlockHead(ty: ClrType, variables: seq<Variable>)
    | UnaryHead(op: UnaryOp, ty: ClrType)
    | CallHead(hasReceiver: bool, callee: MethodRef)
    | ConditionalHead
    | OtherHead(node: nat)

  function HeadOf(e: Expr): Head {
    match e
    case Boolish(_) => BoolishHead
    case Block(ty, vars, _) => BlockHead(ty, vars)
    case Unary(op, _, ty) => UnaryHead(op, ty)
    case Call(recv, m, _) => CallHead(recv.Some?, m)
    case Conditional(_, _, _) => ConditionalHead
    case Other(n) => OtherHead(n)
  }

  /** The immediate child expressions of a node, in source order (a call's
      receiver, when present, before its arguments). */
  function Children(e: Expr): (cs: seq<Expr>)
    ensures forall i :: 0 <= i < |cs| ==> cs[i] < e
  {
    match e
    case Boolish(c) => [c]
    case Block(_, _, body) => body
    case Unary(_, x, _) => [x]
    case Call(recv, _, args) => (match recv case None => [] case Some(o) => [o]) + args
    case Conditional(t, a, b) => [t, a, b]
    case Other(_) => []
  }

  /** A node is determined by its head and its children, so a contract that
      fixes both fixes the node. */
  lemma HeadAndChildrenDetermineNode(e1: Expr, e2: Expr)
    requires HeadOf(e1) == HeadOf(e2) && Children(e1) == Children(e2)
    ensures e1 == e2
  {
    if e1.Call? {
      var k := if e1.receiver.Some? then 1 else 0;
      assert e1.arguments == Children(e1)[k..];
      assert e2.arguments == Children(e2)[k..];
      if e1.receiver.Some? {
        assert e1.receiver.value == Children(e1)[0];
      }
    }
  }

  /** Number of Boolish markers anywhere in `e`. */
  function CountBoolish(e: Expr): nat
    decreases e, 1
  {
    match e
    case Boolish(c) => 1 + CountBoolish(c)
    case Block(_, _, body) => CountBoolishAll(body)
    case Unary(_, x, _) => CountBoolish(x)
    case Call(recv, _, args) =>
      (match recv case None => 0 case Some(o) => CountBoolish(o)) + CountBoolishAll(args)
    case Conditional(t, a, b) => CountBoolish(t) + CountBoolish(a) + CountBoolish(b)
    case Other(_) => 0
  }

  function CountBoolishAll(es: seq<Expr>): nat
    decreases es, 0
  {
    if es == [] then 0 else CountBoolish(es[0]) + CountBoolishAll(es[1..])
  }

  /** `e` contains no Boolish marker anywhere. */
  predicate NoBoolish(e: Expr) {
    CountBoolish(e) == 0
  }

  /** Number of call nodes anywhere in `e` that invoke the truthiness predicate. */
  function CountTruthyCalls(e: Expr): nat
    decreases e, 1
  {
    match e
    case Boolish(c) => CountTruthyCalls(c)
    case Block(_, _, body) => CountTruthyCallsAll(body)
    case Unary(_, x, _) => CountTruthyCalls(x)
    case Call(recv, m, args) =>
      (if m == TruthyPredicate then 1 else 0)
      + (match recv case None => 0 case Some(o) => CountTruthyCalls(o))
      + CountTruthyCallsAll(args)
    case Conditional(t, a, b) => CountTruthyCalls(t) + CountTruthyCalls(a) + CountTruthyCalls(b)
    case Other(_) => 0
  }

  function CountTruthyCallsAll(es: seq<Expr>): nat
    decreases es, 0
  {
    if es == [] then 0 else CountTruthyCalls(es[0]) + CountTruthyCallsAll(es[1..])
  }

  /** Number of nodes in `e`. */
  function Size(e: Expr): nat
    decreases e, 1
  {
    match e
    case Boolish(c) => 1 + Size(c)
    case Block(_, _, body) => 1 + SizeAll(body)
    case Unary(_, x, _) => 1 + Size(x)
    case Call(recv, _, args) =>
      1 + (match recv case None => 0 case Some(o) => Size(o)) + SizeAll(args)
    case Conditional(t, a, b) => 1 + Size(t) + Size(a) + Size(b)
    case Other(_) => 1
  }

  function SizeAll(es: seq<Expr>): nat
    decreases es, 0
  {
    if es == [] then 0 else Size(es[0]) + SizeAll(es[1..])
  }
}
