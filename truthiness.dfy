/**
  The values a template condition can produce, and what is known of the
  truthiness predicate `IsTruthyOrNonEmpty` that every Boolish marker is
  lowered to. Its body is not part of this model: it is a parameter, and
  the only facts assumed of it are the ones the inversion tests fix.
*/
module Truthiness {

  /** A context value as the render-time condition sees it. */
  datatype Value =
    | Absent                     // a missing member, or null
    | Bool(b: bool)
    | Str(s: string)
    | Num(n: int)
    | List(items: seq<Value>)    // an array or other enumerable
    | Object(id: nat)            // any other host object

  /** What the inversion tests fix about the truthiness predicate:
      a missing key, `false` and an empty sequence are falsy, and a
      sequence holding one string is truthy. */
  ghost predicate TestBacked(truthy: Value -> bool) {
    && !truthy(Absent)
    && !truthy(Bool(false))
    && !truthy(List([]))
    && forall s :: truthy(List([Str(s)]))
  }

  /** A witness that `TestBacked` can be met: a classification in which
      only absent, `false`, the empty string and the empty sequence are
      falsy. It is not a claim about the body of the real predicate. */
  function ReferenceTruthiness(v: Value): (r: bool)
    ensures !r <==> v in {Absent, Bool(false), Str(""), List([])}
  {
    match v
    case Absent => false
    case Bool(b) => b
    case Str(s) => s != ""
    case Num(_) => true
    case List(items) => items != []
    case Object(_) => true
  }

  lemma ReferenceTruthinessMeetsTests()
    ensures TestBacked(ReferenceTruthiness)
  {
  }
}
