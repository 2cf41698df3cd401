/**
 * Field conditions: the side predicates a constraint leaves on a field, how a
 * second condition on the same field is merged into the first, and the
 * `assume(...)` filter line each one emits.
 */
module Conditions {
  import opened Base

  datatype Condition =
    | Equals(value: Value)
    | NotEquals(value: Value)
    | LessThan(value: Value, strict: bool)
    | GreaterThan(value: Value, strict: bool)
    | In(values: seq<Value>)
    | NotIn(values: seq<Value>)

  /**
   * `Condition.merge`: only a not-equals followed by another not-equals merges,
   * into a not-in over both values; every other pairing raises.
   */
  function Merge(first: Condition, second: Condition): Result<Condition>
  {
    if first.NotEquals? && second.NotEquals? then Ok(NotIn([first.value, second.value]))
    else Err(NotImplementedError)
  }

  /**
   * What a condition requires of a generated value (the meaning of its filter
   * line). Equality and membership are structural on `Value`, so VBool(true)
   * differs from VInt(1), unlike Python's `True == 1`.
   */
  predicate Holds(c: Condition, x: Value)
  {
    match c
    case Equals(v) => x == v
    case NotEquals(v) => x != v
    case LessThan(v, strict) =>
      IntValue(x).Some? && IntValue(v).Some? &&
      (if strict then IntValue(x).value < IntValue(v).value else IntValue(x).value <= IntValue(v).value)
    case GreaterThan(v, strict) =>
      IntValue(x).Some? && IntValue(v).Some? &&
      (if strict then IntValue(x).value > IntValue(v).value else IntValue(x).value >= IntValue(v).value)
    case In(vs) => x in vs
    case NotIn(vs) => x !in vs
  }

  /** Merging succeeds exactly for two not-equals conditions, and then yields the not-in of both. */
  lemma MergeOnlyNotEquals(first: Condition, second: Condition)
    ensures Merge(first, second).Ok? <==> first.NotEquals? && second.NotEquals?
    ensures Merge(first, second).Ok? ==> Merge(first, second).value == NotIn([first.value, second.value])
    ensures Merge(first, second).Err? ==> Merge(first, second).error == NotImplementedError
  {
  }

  /** A merged condition holds of a value exactly when both conditions it came from hold. */
  lemma MergeMeansBoth(first: Condition, second: Condition, x: Value)
    requires Merge(first, second).Ok?
    ensures Holds(Merge(first, second).value, x) <==> Holds(first, x) && Holds(second, x)
  {
  }

  /** The result of a merge is never mergeable again: a third condition on the field raises. */
  lemma MergedIsFinal(first: Condition, second: Condition, third: Condition)
    requires Merge(first, second).Ok?
    ensures Merge(Merge(first, second).value, third) == Err(NotImplementedError)
  {
  }

  function Assume(predicate_text: string): string
  {
    "assume(" + predicate_text + ")"
  }

  function Comparison(field: string, op: string, v: Value): string
  {
    field + " " + op + " " + ValueToPython(v)
  }

  function NotEqualTexts(field: string, vs: seq<Value>): (r: seq<string>)
    ensures |r| == |vs|
  {
    if vs == [] then [] else [Comparison(field, "!=", vs[0])] + NotEqualTexts(field, vs[1..])
  }

  /** `Condition.to_python`: the filter line for a field (indentation is not modelled). */
  function ToPython(c: Condition, field: string): string
  {
    match c
    case Equals(v) => Assume(Comparison(field, "==", v))
    case NotEquals(v) => Assume(Comparison(field, "!=", v))
    case LessThan(v, strict) => Assume(Comparison(field, if strict then "<" else "<=", v))
    case GreaterThan(v, strict) => Assume(Comparison(field, if strict then ">" else ">=", v))
    case In(vs) => Assume(field + " in " + ValueToPython(VTuple(vs)))
    case NotIn(vs) => Assume(Join(" and ", NotEqualTexts(field, vs)))
  }

  /**
   * The filter of two merged not-equals is the conjunction, joined by " and ",
   * of the two comparisons the unmerged conditions would have emitted.
   */
  lemma MergedFilterIsConjunction(field: string, a: Value, b: Value)
    ensures Merge(NotEquals(a), NotEquals(b)).Ok?
    ensures ToPython(NotEquals(a), field) == Assume(Comparison(field, "!=", a))
    ensures ToPython(Merge(NotEquals(a), NotEquals(b)).value, field)
         == Assume(Comparison(field, "!=", a) + " and " + Comparison(field, "!=", b))
  {
    var texts := NotEqualTexts(field, [a, b]);
    assert [a, b][1..] == [b];
    assert [b][1..] == [];
    assert NotEqualTexts(field, [b]) == [Comparison(field, "!=", b)];
    assert texts == [Comparison(field, "!=", a), Comparison(field, "!=", b)];
    JoinTwo(" and ", texts[0], texts[1]);
  }
}
