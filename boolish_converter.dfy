/**
  The truthiness-normalisation pass: every Boolish marker becomes a call to
  the one truthiness predicate, applied to its rewritten condition; blocks,
  unary nodes, method calls and conditionals are rebuilt with the same shape
  and their children rewritten; every other node is returned unchanged.
*/
module BoolishConverter {
  import opened Wrappers
  import opened Expressions

  /** The rewrite of one node: a Boolish marker's head becomes a static
      call of the truthiness predicate, every other head is kept, and the
      children stay in place, each rewritten. */
  function Convert(e: Expr): (r: Expr)
    ensures HeadOf(r) == if e.Boolish? then CallHead(false, TruthyPredicate) else HeadOf(e)
    ensures |Children(r)| == |Children(e)|
    ensures forall i {:trigger Children(r)[i]} :: 0 <= i < |Children(e)| ==> Children(r)[i] == Convert(Children(e)[i])
    decreases e, 1
  {
    match e
    case Boolish(c) => Call(None, TruthyPredicate, [Convert(c)])
    case Block(ty, vars, body) => Block(ty, vars, ConvertAll(body))
    case Unary(op, x, ty) => Unary(op, Convert(x), ty)
    case Call(recv, m, args) =>
      Call(match recv case None => None case Some(o) => Some(Convert(o)), m, ConvertAll(args))
    case Conditional(t, a, b) => Conditional(Convert(t), Convert(a), Convert(b))
    case Other(_) => e
  }

  /** The rewrite of a child list, element by element, in order. */
  function ConvertAll(es: seq<Expr>): (rs: seq<Expr>)
    ensures |rs| == |es|
    ensures forall i :: 0 <= i < |es| ==> rs[i] == Convert(es[i])
    decreases es, 0
  {
    if es == [] then [] else [Convert(es[0])] + ConvertAll(es[1..])
  }

  // ----- What the pass removes, adds and keeps, over whole trees -----

  /** No Boolish marker survives the pass. */
  lemma {:induction false} ConvertRemovesBoolish(e: Expr)
    ensures NoBoolish(Convert(e))
    decreases e, 1
  {
    match e
    case Boolish(c) =>
      ConvertRemovesBoolish(c);
      assert CountBoolishAll([Convert(c)]) == CountBoolish(Convert(c));
    case Block(_, _, body) => ConvertAllRemovesBoolish(body);
    case Unary(_, x, _) => ConvertRemovesBoolish(x);
    case Call(recv, _, args) =>
      if recv.Some? { ConvertRemovesBoolish(recv.value); }
      ConvertAllRemovesBoolish(args);
    case Conditional(t, a, b) =>
      ConvertRemovesBoolish(t); ConvertRemovesBoolish(a); ConvertRemovesBoolish(b);
    case Other(_) =>
  }

  lemma {:induction false} ConvertAllRemovesBoolish(es: seq<Expr>)
    ensures CountBoolishAll(ConvertAll(es)) == 0
    decreases es, 0
  {
    if es != [] {
      ConvertRemovesBoolish(es[0]);
      ConvertAllRemovesBoolish(es[1..]);
      assert ConvertAll(es)[1..] == ConvertAll(es[1..]);
    }
  }

  /** Each Boolish marker becomes exactly one call of the truthiness predicate;
      the calls already present stay. */
  lemma {:induction false} ConvertAddsOneTruthyCallPerBoolish(e: Expr)
    ensures CountTruthyCalls(Convert(e)) == CountTruthyCalls(e) + CountBoolish(e)
    decreases e, 1
  {
    match e
    case Boolish(c) =>
      ConvertAddsOneTruthyCallPerBoolish(c);
      assert CountTruthyCallsAll([Convert(c)]) == CountTruthyCalls(Convert(c));
    case Block(_, _, body) => ConvertAllAddsOneTruthyCallPerBoolish(body);
    case Unary(_, x, _) => ConvertAddsOneTruthyCallPerBoolish(x);
    case Call(recv, _, args) =>
      if recv.Some? { ConvertAddsOneTruthyCallPerBoolish(recv.value); }
      ConvertAllAddsOneTruthyCallPerBoolish(args);
    case Conditional(t, a, b) =>
      ConvertAddsOneTruthyCallPerBoolish(t);
      ConvertAddsOneTruthyCallPerBoolish(a);
      ConvertAddsOneTruthyCallPerBoolish(b);
    case Other(_) =>
  }

  lemma {:induction false} ConvertAllAddsOneTruthyCallPerBoolish(es: seq<Expr>)
    ensures CountTruthyCallsAll(ConvertAll(es)) == CountTruthyCallsAll(es) + CountBoolishAll(es)
    decreases es, 0
  {
    if es != [] {
      ConvertAddsOneTruthyCallPerBoolish(es[0]);
      ConvertAllAddsOneTruthyCallPerBoolish(es[1..]);
      assert ConvertAll(es)[1..] == ConvertAll(es[1..]);
    }
  }

  /** The pass neither drops nor adds nodes: a marker is traded for one call node. */
  lemma {:induction false} ConvertPreservesSize(e: Expr)
    ensures Size(Convert(e)) == Size(e)
    decreases e, 1
  {
    match e
    case Boolish(c) =>
      ConvertPreservesSize(c);
      assert SizeAll([Convert(c)]) == Size(Convert(c));
    case Block(_, _, body) => ConvertAllPreservesSize(body);
    case Unary(_, x, _) => ConvertPreservesSize(x);
    case Call(recv, _, args) =>
      if recv.Some? { ConvertPreservesSize(recv.value); }
      ConvertAllPreservesSize(args);
    case Conditional(t, a, b) =>
      ConvertPreservesSize(t); ConvertPreservesSize(a); ConvertPreservesSize(b);
    case Other(_) =>
  }

  lemma {:induction false} ConvertAllPreservesSize(es: seq<Expr>)
    ensures SizeAll(ConvertAll(es)) == SizeAll(es)
    decreases es, 0
  {
    if es != [] {
      ConvertPreservesSize(es[0]);
      ConvertAllPreservesSize(es[1..]);
      assert ConvertAll(es)[1..] == ConvertAll(es[1..]);
    }
  }

  /** A tree without Boolish markers comes back unchanged. */
  lemma {:induction false} ConvertKeepsBoolishFree(e: Expr)
    requires NoBoolish(e)
    ensures Convert(e) == e
    decreases e, 1
  {
    match e
    case Boolish(c) =>
    case Block(_, _, body) => ConvertAllKeepsBoolishFree(body);
    case Unary(_, x, _) => ConvertKeepsBoolishFree(x);
    case Call(recv, _, args) =>
      if recv.Some? { ConvertKeepsBoolishFree(recv.value); }
      ConvertAllKeepsBoolishFree(args);
    case Conditional(t, a, b) =>
      ConvertKeepsBoolishFree(t); ConvertKeepsBoolishFree(a); ConvertKeepsBoolishFree(b);
    case Other(_) =>
  }

  lemma {:induction false} ConvertAllKeepsBoolishFree(es: seq<Expr>)
    requires CountBoolishAll(es) == 0
    ensures ConvertAll(es) == es
    decreases es, 0
  {
    if es != [] {
      ConvertKeepsBoolishFree(es[0]);
      ConvertAllKeepsBoolishFree(es[1..]);
    }
  }

  /** The pass changes a tree exactly when the tree holds a Boolish marker. */
  lemma ConvertIsIdentityIffBoolishFree(e: Expr)
    ensures Convert(e) == e <==> NoBoolish(e)
  {
    ConvertRemovesBoolish(e);
    if NoBoolish(e) { ConvertKeepsBoolishFree(e); }
  }

  /** Running the pass twice is the same as running it once. */
  lemma {:induction false} ConvertIdempotent(e: Expr)
    ensures Convert(Convert(e)) == Convert(e)
  {
    ConvertRemovesBoolish(e);
    ConvertKeepsBoolishFree(Convert(e));
  }
}
