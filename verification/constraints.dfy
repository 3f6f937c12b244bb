/** The optional `$constraint` argument of `property`, `key` and `is`, and how
    the asserter turns it into a matcher. PHPUnit's matchers themselves
    (`equalTo`, `isEmpty`, `greaterThan`, `logicalNot`, ...) are opaque here. */
module Constraints {
  import opened Wrappers
  import opened Values

  /** A PHPUnit constraint object: equality with a value, or any other
      predicate over the inspected value. */
  datatype Matcher = EqualTo(expected: Value) | Satisfies(accepts: Value -> bool)

  /** What a caller passes as `$constraint`: a plain PHP value (NULL when the
      argument is omitted), or a constraint object. */
  datatype Arg = Plain(v: Value) | Constraint(m: Matcher)

  /** The default `$constraint = NULL`. */
  const Omitted: Arg := Plain(Null)

  predicate Accepts(m: Matcher, v: Value) {
    match m
    case EqualTo(e) => v == e
    case Satisfies(f) => f(v)
  }

  /** `isset($constraint)`, the test `property` uses. */
  predicate IsSet(a: Arg): (r: bool)
    ensures r <==> a != Omitted
  {
    !(a.Plain? && a.v.Null?)
  }

  /** `if ($constraint)`, the test `key` uses; a constraint object is always
      true. */
  predicate IsTruthy(a: Arg): (r: bool)
    ensures r <==> a.Constraint? || a.v !in FalsyValues
  {
    a.Constraint? || Truthy(a.v)
  }

  /** The normalisation at the top of `is`: a string becomes `equalTo` of that
      string, a constraint object is used unchanged, and anything else is not
      a constraint at all (`assertThat` only takes constraint objects). */
  function Resolve(a: Arg): (r: Option<Matcher>)
    ensures r.Some? <==> a.Constraint? || a.v.Str?
    ensures a.Constraint? && r.Some? ==> forall v :: Accepts(r.value, v) == Accepts(a.m, v)
    ensures a.Plain? && r.Some? ==> forall v :: Accepts(r.value, v) <==> v == a.v
  {
    match a
    case Constraint(m) => Some(m)
    case Plain(v) => if v.Str? then Some(EqualTo(v)) else None
  }

  /** Whether `is(a)` passes on a node holding `v`. */
  predicate Satisfied(a: Arg, v: Value) {
    var m := Resolve(a);
    m.Some? && Accepts(m.value, v)
  }

  /** Every argument `key` applies is one `property` applies too, but not
      conversely: the strings "" and "0", the integer 0, false and the empty
      array are set yet falsy, so `key` skips exactly those. */
  lemma TruthyImpliesSet(a: Arg)
    ensures IsTruthy(a) ==> IsSet(a)
    ensures IsSet(a) && !IsTruthy(a) <==>
      a.Plain? && a.v in {Str(""), Str("0"), Int(0), Bool(false), Arr(map[])}
  {
    if a.Plain? && a.v.Arr? && |a.v.entries| == 0 {
      assert a.v.entries == map[];
    }
  }
}
