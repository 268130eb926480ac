/**
  A meaning for expression trees, used to state that the pass is a
  faithful lowering: a Boolish marker means "the truthiness of its
  condition", and after the pass that meaning is carried by an explicit
  call of the truthiness predicate.

  Everything the tree does not fix is a parameter (`Interp`): the truthiness
  predicate, the value of each opaque leaf, and what unary operators and
  methods compute.
*/
module Semantics {
  import opened Wrappers
  import opened Expressions
  import opened Truthiness
  import opened BoolishConverter

  datatype Interp = Interp(
    truthy: Value -> bool,
    leaf: nat -> Value,
    unary: (UnaryOp, ClrType, Value) -> Value,
    call: (MethodRef, Option<Value>, seq<Value>) -> Value)

  /** The static truthiness method computes the interpretation's truthiness. */
  ghost predicate TruthyCallMeansTruthy(I: Interp) {
    forall v :: I.call(TruthyPredicate, None, [v]) == Bool(I.truthy(v))
  }

  /** The value of an expression. A block yields its last expression
      (nothing for an empty block); a conditional takes its then-branch
      exactly when the test yields `true`. */
  function Eval(I: Interp, e: Expr): Value
    decreases e, 1
  {
    match e
    case Boolish(c) => Bool(I.truthy(Eval(I, c)))
    case Block(_, _, body) => if body == [] then Absent else Eval(I, body[|body| - 1])
    case Unary(op, x, ty) => I.unary(op, ty, Eval(I, x))
    case Call(recv, m, args) =>
      I.call(m, match recv case None => None case Some(o) => Some(Eval(I, o)), EvalAll(I, args))
    case Conditional(t, a, b) => if Eval(I, t) == Bool(true) then Eval(I, a) else Eval(I, b)
    case Other(n) => I.leaf(n)
  }

  /** The values of a list of arguments, left to right. */
  function EvalAll(I: Interp, es: seq<Expr>): (vs: seq<Value>)
    ensures |vs| == |es|
    decreases es, 0
  {
    if es == [] then [] else [Eval(I, es[0])] + EvalAll(I, es[1..])
  }

  /** The pass does not change what an expression means. */
  lemma {:induction false} ConvertPreservesMeaning(I: Interp, e: Expr)
    requires TruthyCallMeansTruthy(I)
    ensures Eval(I, Convert(e)) == Eval(I, e)
    decreases e, 1
  {
    match e
    case Boolish(c) =>
      ConvertPreservesMeaning(I, c);
      assert EvalAll(I, [Convert(c)]) == [Eval(I, Convert(c))];
    case Block(_, _, body) =>
      if body != [] { ConvertPreservesMeaning(I, body[|body| - 1]); }
    case Unary(_, x, _) => ConvertPreservesMeaning(I, x);
    case Call(recv, _, args) =>
      if recv.Some? { ConvertPreservesMeaning(I, recv.value); }
      ConvertAllPreservesMeaning(I, args);
    case Conditional(t, a, b) =>
      ConvertPreservesMeaning(I, t); ConvertPreservesMeaning(I, a); ConvertPreservesMeaning(I, b);
    case Other(_) =>
  }

  lemma {:induction false} ConvertAllPreservesMeaning(I: Interp, es: seq<Expr>)
    requires TruthyCallMeansTruthy(I)
    ensures EvalAll(I, ConvertAll(es)) == EvalAll(I, es)
    decreases es, 0
  {
    if es != [] {
      ConvertPreservesMeaning(I, es[0]);
      ConvertAllPreservesMeaning(I, es[1..]);
      assert ConvertAll(es)[1..] == ConvertAll(es[1..]);
    }
  }

  /** After the pass, an inversion's condition on a key evaluates as the
      inversion tests expect: false for a missing key, for `false` and for
      an empty sequence (so the inverse body renders), true for a sequence
      holding one string (so it does not). */
  lemma {:induction false} LoweredConditionOnTestValues(I: Interp, key: nat)
    requires TestBacked(I.truthy) && TruthyCallMeansTruthy(I)
    ensures I.leaf(key) == Absent ==> Eval(I, Convert(Boolish(Other(key)))) == Bool(false)
    ensures I.leaf(key) == Bool(false) ==> Eval(I, Convert(Boolish(Other(key)))) == Bool(false)
    ensures I.leaf(key) == List([]) ==> Eval(I, Convert(Boolish(Other(key)))) == Bool(false)
    ensures I.leaf(key).List? && |I.leaf(key).items| == 1 && I.leaf(key).items[0].Str? ==>
      Eval(I, Convert(Boolish(Other(key)))) == Bool(true)
  {
    var v := I.leaf(key);
    ConvertPreservesMeaning(I, Boolish(Other(key)));
    assert Eval(I, Boolish(Other(key))) == Bool(I.truthy(v));
    if v.List? && |v.items| == 1 && v.items[0].Str? {
      assert v == List([Str(v.items[0].s)]);
    }
  }
}
