/**
 * Field-generator nodes: the five node variants with their constraint state,
 * `is_default`, `children`, the constraint mutators (with their errors and
 * array broadcasting), `copy`, the array constructors, and the array
 * representative (`some` and `_assign_some`).
 *
 * A node is a value here; an operation the source performs in place returns
 * the node as it is afterwards, together with the error it raised, if any, so
 * that a change made before the error is kept.
 */
module Generators {
  import opened Base
  import opened RosTypes
  import opened Conditions

  /** A node's `index`: none, a literal position, the loop variable "i", or a random-index placeholder. */
  datatype Index = NoIndex | At(n: nat) | LoopVar | RandomIndex(arrayName: string)

  datatype Info = Info(fieldName: string, rosType: string, index: Index)

  /** The constraint state of a scalar node: `condition`, `constant`, `pool`. */
  datatype Constraints = Constraints(condition: Option<Condition>, constant: Option<Value>, pool: Option<seq<Value>>)

  const Unconstrained := Constraints(None, None, None)

  datatype Gen =
    | Simple(info: Info, cs: Constraints, generated: bool)
    | Numeric(info: Info, cs: Constraints, minValue: Option<Value>, maxValue: Option<Value>, generated: bool)
    | Composite(info: Info, fields: seq<Gen>, generated: bool)
    | FixedArray(info: Info, length: nat, elems: seq<Gen>, representative: Option<Gen>, generated: bool)
    | VarArray(info: Info, all: Gen, generated: bool)

  /** The variants that are `FieldGenerator`s (and so have `copy`); arrays are not. */
  predicate IsField(g: Gen)
  {
    g.Simple? || g.Numeric? || g.Composite?
  }

  /** `is_default`: no constraint anywhere in the subtree (numeric bounds are not looked at). */
  predicate IsDefault(g: Gen)
    decreases g
  {
    match g
    case Simple(_, cs, _) => cs == Unconstrained
    case Numeric(_, cs, _, _, _) => cs == Unconstrained
    case Composite(_, fs, _) => forall i :: 0 <= i < |fs| ==> IsDefault(fs[i])
    case FixedArray(_, _, es, _, _) => forall i :: 0 <= i < |es| ==> IsDefault(es[i])
    case VarArray(_, a, _) => IsDefault(a)
  }

  /** `children()`: what the resolution driver enqueues after the node renders. */
  function Children(g: Gen): (r: seq<Gen>)
    ensures forall i :: 0 <= i < |r| ==> r[i] < g
  {
    match g
    case Composite(_, fs, _) => fs
    case FixedArray(_, _, es, _, _) => es
    case _ => []
  }

  /** No node in the subtree has been rendered yet. */
  predicate Unrendered(g: Gen)
    decreases g
  {
    !g.generated &&
    match g
    case Composite(_, fs, _) => forall i :: 0 <= i < |fs| ==> Unrendered(fs[i])
    case FixedArray(_, _, es, rep, _) =>
      (forall i :: 0 <= i < |es| ==> Unrendered(es[i])) && (rep.Some? ==> Unrendered(rep.value))
    case VarArray(_, a, _) => Unrendered(a)
    case _ => true
  }

  // ---------------------------------------------------------------------------
  // Constraint mutators
  // ---------------------------------------------------------------------------

  /** A call of one of the eight mutators `eq`, `neq`, `lt`, `lte`, `gt`, `gte`, `in_set`, `not_in`. */
  datatype Constraint =
    | Eq(value: Value) | Neq(value: Value)
    | Lt(value: Value) | Lte(value: Value) | Gt(value: Value) | Gte(value: Value)
    | InSet(values: Value) | NotInSet(values: Value)
  {
    predicate IsOrdering() { Lt? || Lte? || Gt? || Gte? }
  }

  /** The node after a mutator call and the error the call raised, if any. */
  datatype Applied = Applied(node: Gen, raised: Option<Error>)

  /** `_set_condition`: store the condition, or merge it into the one already there. */
  function SetCondition(cs: Constraints, c: Condition): (Constraints, Option<Error>)
  {
    match cs.condition
    case None => (cs.(condition := Some(c)), None)
    case Some(existing) =>
      match Merge(existing, c)
      case Ok(m) => (cs.(condition := Some(m)), None)
      case Err(e) => (cs, Some(e))
  }

  /** The error of the first element that fails `_type_check_value`. */
  function FirstTypeError(rosType: string, vs: seq<Value>, corrected: bool): (r: Option<Error>)
    ensures r.None? <==> forall i :: 0 <= i < |vs| ==> TypeCheckWith(rosType, vs[i], corrected).None?
    ensures r.Some? ==> exists i :: 0 <= i < |vs| && r == TypeCheckWith(rosType, vs[i], corrected)
  {
    if vs == [] then None
    else if TypeCheckWith(rosType, vs[0], corrected).Some? then TypeCheckWith(rosType, vs[0], corrected)
    else
      var r := FirstTypeError(rosType, vs[1..], corrected);
      assert r.Some? ==> exists i :: 1 <= i < |vs| && r == TypeCheckWith(rosType, vs[i], corrected) by {
        if r.Some? {
          var i :| 0 <= i < |vs[1..]| && r == TypeCheckWith(rosType, vs[1..][i], corrected);
          assert vs[1..][i] == vs[i + 1];
        }
      }
      r
  }

  /**
   * `eq`, `neq`, `in_set`, `not_in` on a scalar node, with the corrected or
   * the as-written `accepts` behind the type check.
   */
  function ApplyChoice(rosType: string, cs: Constraints, c: Constraint, corrected: bool): (Constraints, Option<Error>)
    requires !c.IsOrdering()
  {
    match c
    case Eq(v) =>
      if TypeCheckWith(rosType, v, corrected).Some? then (cs, TypeCheckWith(rosType, v, corrected))
      else if cs.constant.Some? || cs.pool.Some? then (cs, Some(InconsistencyError))
      else SetCondition(cs.(constant := Some(v)), Equals(v))
    case Neq(v) =>
      if TypeCheckWith(rosType, v, corrected).Some? then (cs, TypeCheckWith(rosType, v, corrected))
      else SetCondition(cs, NotEquals(v))
    case InSet(vs) =>
      if !vs.VTuple? then (cs, Some(TypeError))
      else if FirstTypeError(rosType, vs.items, corrected).Some? then (cs, FirstTypeError(rosType, vs.items, corrected))
      else if cs.constant.Some? || cs.pool.Some? then (cs, Some(InconsistencyError))
      else SetCondition(cs.(pool := Some(vs.items)), In(vs.items))
    case NotInSet(vs) =>
      if !vs.VTuple? then (cs, Some(TypeError))
      else if FirstTypeError(rosType, vs.items, corrected).Some? then (cs, FirstTypeError(rosType, vs.items, corrected))
      else SetCondition(cs, NotIn(vs.items))
  }

  /** `lt`, `lte`, `gt`, `gte` on a numeric node: the bound is overwritten before the condition is set. */
  function ApplyBound(rosType: string, cs: Constraints, lo: Option<Value>, hi: Option<Value>, c: Constraint,
                      corrected: bool)
    : (Constraints, Option<Value>, Option<Value>, Option<Error>)
    requires c.IsOrdering()
  {
    if TypeCheckWith(rosType, c.value, corrected).Some? then (cs, lo, hi, TypeCheckWith(rosType, c.value, corrected))
    else match c
      case Lt(v) => var (cs', e) := SetCondition(cs, LessThan(v, true)); (cs', lo, Some(v), e)
      case Lte(v) => var (cs', e) := SetCondition(cs, LessThan(v, false)); (cs', lo, Some(v), e)
      case Gt(v) => var (cs', e) := SetCondition(cs, GreaterThan(v, true)); (cs', Some(v), hi, e)
      case Gte(v) => var (cs', e) := SetCondition(cs, GreaterThan(v, false)); (cs', Some(v), hi, e)
  }

  /**
   * A mutator call on any node. Scalar nodes reject ordering, composites reject
   * everything, fixed arrays broadcast to every element in order (stopping at
   * the first element that raises) and variable arrays pass the call to their
   * template. An array's pending representative is not touched.
   */
  function Apply(g: Gen, c: Constraint): Applied
    decreases g, 1
  {
    match g
    case Simple(info, cs, gen) =>
      if c.IsOrdering() then Applied(g, Some(UnsupportedOperationError))
      else var (cs', e) := ApplyChoice(info.rosType, cs, c, true); Applied(Simple(info, cs', gen), e)
    case Numeric(info, cs, lo, hi, gen) =>
      if c.IsOrdering() then
        var (cs', lo', hi', e) := ApplyBound(info.rosType, cs, lo, hi, c, true);
        Applied(Numeric(info, cs', lo', hi', gen), e)
      else
        var (cs', e) := ApplyChoice(info.rosType, cs, c, true);
        Applied(Numeric(info, cs', lo, hi, gen), e)
    case Composite(_, _, _) => Applied(g, Some(UnsupportedOperationError))
    case FixedArray(info, n, es, rep, gen) =>
      var (es', e) := ApplyEach(es, c);
      Applied(FixedArray(info, n, es', rep, gen), e)
    case VarArray(info, a, gen) =>
      var r := Apply(a, c);
      Applied(VarArray(info, r.node, gen), r.raised)
  }

  /** The broadcast loop of a fixed array. */
  function ApplyEach(es: seq<Gen>, c: Constraint): (r: (seq<Gen>, Option<Error>))
    ensures |r.0| == |es|
    decreases es, 0
  {
    if es == [] then ([], None)
    else
      var first := Apply(es[0], c);
      if first.raised.Some? then ([first.node] + es[1..], first.raised)
      else var (rest, e) := ApplyEach(es[1..], c); ([first.node] + rest, e)
  }

  /** How many leading elements take the constraint without raising. */
  function Accepted(es: seq<Gen>, c: Constraint): (k: nat)
    ensures k <= |es|
    ensures forall i :: 0 <= i < k ==> Apply(es[i], c).raised.None?
    ensures k < |es| ==> Apply(es[k], c).raised.Some?
  {
    if es == [] || Apply(es[0], c).raised.Some? then 0 else 1 + Accepted(es[1..], c)
  }

  /** Broadcasting raises the error of the first element that raises, and nothing when none does. */
  lemma {:induction false} ApplyEachRaises(es: seq<Gen>, c: Constraint)
    ensures ApplyEach(es, c).1 == (if Accepted(es, c) < |es| then Apply(es[Accepted(es, c)], c).raised else None)
  {
    if es != [] {
      var first := Apply(es[0], c);
      if first.raised.None? {
        assert ApplyEach(es, c).1 == ApplyEach(es[1..], c).1;
        assert Accepted(es, c) == 1 + Accepted(es[1..], c);
        ApplyEachRaises(es[1..], c);
      }
    }
  }

  /**
   * Broadcasting stops at the first element that raises: every element up to
   * and including it is as its own call left it, and the elements after it
   * are untouched.
   */
  lemma {:induction false} ApplyEachStopsAtFirstError(es: seq<Gen>, c: Constraint, i: nat)
    requires i < |es|
    ensures i <= Accepted(es, c) ==> ApplyEach(es, c).0[i] == Apply(es[i], c).node
    ensures i > Accepted(es, c) ==> ApplyEach(es, c).0[i] == es[i]
  {
    var first := Apply(es[0], c);
    if first.raised.None? {
      assert ApplyEach(es, c).0 == [first.node] + ApplyEach(es[1..], c).0;
      assert Accepted(es, c) == 1 + Accepted(es[1..], c);
      if i > 0 {
        ApplyEachStopsAtFirstError(es[1..], c, i - 1);
        assert ApplyEach(es, c).0[i] == ApplyEach(es[1..], c).0[i - 1] && es[i] == es[1..][i - 1];
      }
    } else {
      assert ApplyEach(es, c).0 == [first.node] + es[1..] && Accepted(es, c) == 0;
    }
  }

  /**
   * The shape the constructors guarantee: array elements, an array's pending
   * representative and a variable array's template are field generators (never
   * arrays), and a fixed array holds exactly `length` elements.
   */
  predicate WellFormed(g: Gen)
    decreases g
  {
    match g
    case Composite(_, fs, _) => forall i :: 0 <= i < |fs| ==> WellFormed(fs[i])
    case FixedArray(_, n, es, rep, _) =>
      |es| == n &&
      (forall i :: 0 <= i < |es| ==> IsField(es[i]) && WellFormed(es[i])) &&
      (rep.Some? ==> IsField(rep.value) && WellFormed(rep.value))
    case VarArray(_, a, _) => IsField(a) && WellFormed(a)
    case _ => true
  }

  /** A constraint that went through makes the node non-default (an empty fixed array excepted). */
  lemma {:induction false} ConstrainedIsNotDefault(g: Gen, c: Constraint)
    requires WellFormed(g)
    requires Apply(g, c).raised.None?
    requires !(g.FixedArray? && g.length == 0)
    ensures !IsDefault(Apply(g, c).node)
    decreases g
  {
    match g
    case Simple(info, cs, gen) =>
      ChoiceSetsCondition(info.rosType, cs, c, true);
    case Numeric(info, cs, lo, hi, gen) =>
      if c.IsOrdering() {
        BoundSetsCondition(info.rosType, cs, lo, hi, c, true);
      } else {
        ChoiceSetsCondition(info.rosType, cs, c, true);
      }
    case Composite(_, _, _) =>
    case FixedArray(info, n, es, rep, gen) =>
      assert Apply(es[0], c).raised.None?;
      ConstrainedIsNotDefault(es[0], c);
      assert ApplyEach(es, c).0[0] == Apply(es[0], c).node;
    case VarArray(info, a, gen) =>
      ConstrainedIsNotDefault(a, c);
  }

  /** An empty fixed array takes every constraint silently and stays default. */
  lemma EmptyArrayTakesAnything(g: Gen, c: Constraint)
    requires g.FixedArray? && |g.elems| == 0
    ensures Apply(g, c) == Applied(g, None)
    ensures IsDefault(g)
  {
  }

  /** A composite and a non-numeric scalar refuse ordering constraints and stay as they were. */
  lemma OrderingUnsupported(g: Gen, c: Constraint)
    requires c.IsOrdering() && (g.Simple? || g.Composite?)
    ensures Apply(g, c) == Applied(g, Some(UnsupportedOperationError))
  {
  }

  /** A composite refuses every constraint. */
  lemma CompositeRefusesAll(g: Gen, c: Constraint)
    requires g.Composite?
    ensures Apply(g, c) == Applied(g, Some(UnsupportedOperationError))
  {
  }

  lemma ChoiceSetsCondition(rosType: string, cs: Constraints, c: Constraint, corrected: bool)
    requires !c.IsOrdering() && ApplyChoice(rosType, cs, c, corrected).1.None?
    ensures ApplyChoice(rosType, cs, c, corrected).0 != Unconstrained
  {
  }

  lemma BoundSetsCondition(rosType: string, cs: Constraints, lo: Option<Value>, hi: Option<Value>, c: Constraint,
                           corrected: bool)
    requires c.IsOrdering() && ApplyBound(rosType, cs, lo, hi, c, corrected).3.None?
    ensures ApplyBound(rosType, cs, lo, hi, c, corrected).0 != Unconstrained
  {
  }

  /**
   * As written, every mutator on a scalar field of a built-in type raises and
   * changes nothing: ValueError for `eq`, `neq` and the orderings, and for
   * `in_set` and `not_in` with a non-empty tuple (TypeError when the argument
   * is not a tuple). Only an empty tuple passes the check.
   */
  lemma MutatorsAsWrittenRaise(rosType: string, cs: Constraints, lo: Option<Value>, hi: Option<Value>, c: Constraint)
    requires rosType in IntTypes + FloatTypes + BoolTypes + StringTypes
    ensures (c.Eq? || c.Neq?) ==> ApplyChoice(rosType, cs, c, false) == (cs, Some(ValueError))
    ensures (c.InSet? || c.NotInSet?) && c.values.VTuple? && c.values.items != [] ==>
      ApplyChoice(rosType, cs, c, false) == (cs, Some(ValueError))
    ensures (c.InSet? || c.NotInSet?) && !c.values.VTuple? ==> ApplyChoice(rosType, cs, c, false) == (cs, Some(TypeError))
    ensures c.IsOrdering() ==> ApplyBound(rosType, cs, lo, hi, c, false) == (cs, lo, hi, Some(ValueError))
  {
    if c.Eq? || c.Neq? || c.IsOrdering() {
      TypeCheckAsWrittenRejects(rosType, c.value);
    } else if c.values.VTuple? && c.values.items != [] {
      TypeCheckAsWrittenRejects(rosType, c.values.items[0]);
      var e := FirstTypeError(rosType, c.values.items, false);
      var i :| 0 <= i < |c.values.items| && e == TypeCheckWith(rosType, c.values.items[i], false);
      TypeCheckAsWrittenRejects(rosType, c.values.items[i]);
    }
  }

  /** A scalar-valued node: the two variants that hold constraints. */
  predicate IsScalar(g: Gen) { g.Simple? || g.Numeric? }

  /**
   * Two not-equals on a fresh scalar merge into one not-in over both values;
   * any third condition then raises NotImplementedError.
   */
  lemma NeqTwiceMerges(g: Gen, a: Value, b: Value, third: Constraint)
    requires IsScalar(g) && g.cs == Unconstrained
    requires TypeCheck(g.info.rosType, a).None? && TypeCheck(g.info.rosType, b).None?
    requires third.Eq? || third.Neq?
    requires TypeCheck(g.info.rosType, third.value).None?
    ensures var g1 := Apply(g, Neq(a)); var g2 := Apply(g1.node, Neq(b));
      g1.raised.None? && g2.raised.None? && g2.node.cs.condition == Some(NotIn([a, b])) &&
      Apply(g2.node, third).raised == Some(NotImplementedError)
  {
  }

  /**
   * `eq` after `neq` raises when it merges conditions, but the constant it set
   * first stays set.
   */
  lemma EqAfterNeqKeepsConstant(g: Gen, a: Value, b: Value)
    requires IsScalar(g) && g.cs == Unconstrained
    requires TypeCheck(g.info.rosType, a).None? && TypeCheck(g.info.rosType, b).None?
    ensures var g2 := Apply(Apply(g, Neq(a)).node, Eq(b));
      g2.raised == Some(NotImplementedError) && g2.node.cs.constant == Some(b) &&
      g2.node.cs.condition == Some(NotEquals(a))
  {
  }

  /** `eq` or `in_set` on a scalar that already has a constant or a pool raises Inconsistency and changes nothing. */
  lemma SecondChoiceInconsistent(g: Gen, c: Constraint)
    requires IsScalar(g) && (g.cs.constant.Some? || g.cs.pool.Some?)
    requires (c.Eq? && TypeCheck(g.info.rosType, c.value).None?) ||
             (c.InSet? && c.values.VTuple? && FirstTypeError(g.info.rosType, c.values.items, true).None?)
    ensures Apply(g, c) == Applied(g, Some(InconsistencyError))
  {
  }

  /** A set constraint whose argument is not a tuple raises TypeError and changes nothing. */
  lemma SetConstraintNeedsTuple(g: Gen, c: Constraint)
    requires IsScalar(g) && (c.InSet? || c.NotInSet?) && !c.values.VTuple?
    ensures Apply(g, c) == Applied(g, Some(TypeError))
  {
  }

  /** A value that fails the type check raises that check's error and changes nothing. */
  lemma IllTypedValueRejected(g: Gen, c: Constraint)
    requires IsScalar(g) && (c.Eq? || c.Neq? || (g.Numeric? && c.IsOrdering()))
    requires TypeCheck(g.info.rosType, c.value).Some?
    ensures Apply(g, c) == Applied(g, TypeCheck(g.info.rosType, c.value))
  {
  }

  /**
   * An ordering constraint on a numeric node overwrites its bound (it does not
   * narrow it), even when setting the condition then raises; a node that
   * already has a condition always raises.
   */
  lemma BoundOverwritten(g: Gen, c: Constraint)
    requires g.Numeric? && c.IsOrdering() && TypeCheck(g.info.rosType, c.value).None?
    ensures var r := Apply(g, c);
      r.node.Numeric? &&
      (if c.Lt? || c.Lte? then r.node.maxValue == Some(c.value) && r.node.minValue == g.minValue
       else r.node.minValue == Some(c.value) && r.node.maxValue == g.maxValue) &&
      (g.cs.condition.Some? <==> r.raised == Some(NotImplementedError)) &&
      (g.cs.condition.None? ==> r.raised.None?)
  {
  }

  /** Example: `lt(5)` then `lt(10)` raises, and the upper bound is 10 afterwards. */
  lemma LtThenLtWidens(g: Gen)
    requires g.Numeric? && g.info.rosType == "int32" && g.cs == Unconstrained
    ensures var r := Apply(Apply(g, Lt(VInt(5))).node, Lt(VInt(10)));
      r.raised == Some(NotImplementedError) && r.node.maxValue == Some(VInt(10))
  {
    assert TypeCheck("int32", VInt(5)).None?;
    assert TypeCheck("int32", VInt(10)).None?;
    BoundOverwritten(g, Lt(VInt(5)));
    BoundOverwritten(Apply(g, Lt(VInt(5))).node, Lt(VInt(10)));
  }

  // ---------------------------------------------------------------------------
  // copy
  // ---------------------------------------------------------------------------

  /** Some array node occurs in the subtree (arrays have no `copy`). */
  predicate HasArray(g: Gen)
    decreases g
  {
    match g
    case Composite(_, fs, _) => exists i :: 0 <= i < |fs| && HasArray(fs[i])
    case FixedArray(_, _, _, _, _) => true
    case VarArray(_, _, _) => true
    case _ => false
  }

  /**
   * `copy(parent, field_name, index, deep)`: a new, unrendered node; a deep copy
   * keeps the constraints (and bounds) of scalars, a shallow one drops them. A
   * composite copies each field under its own name; an array has no `copy`.
   */
  function Copy(g: Gen, fieldName: string, index: Index, deep: bool): Result<Gen>
    decreases g, 1
  {
    var info := Info(fieldName, g.info.rosType, index);
    match g
    case Simple(_, cs, _) => Ok(Simple(info, if deep then cs else Unconstrained, false))
    case Numeric(_, cs, lo, hi, _) =>
      Ok(if deep then Numeric(info, cs, lo, hi, false) else Numeric(info, Unconstrained, None, None, false))
    case Composite(_, fs, _) =>
      (match CopyEach(fs, deep)
       case Ok(fs') => Ok(Composite(info, fs', false))
       case Err(e) => Err(e))
    case FixedArray(_, _, _, _, _) => Err(AttributeError)
    case VarArray(_, _, _) => Err(AttributeError)
  }

  function CopyEach(fs: seq<Gen>, deep: bool): (r: Result<seq<Gen>>)
    ensures r.Ok? ==> |r.value| == |fs|
    decreases fs, 0
  {
    if fs == [] then Ok([])
    else match Copy(fs[0], fs[0].info.fieldName, NoIndex, deep)
      case Err(e) => Err(e)
      case Ok(f) =>
        match CopyEach(fs[1..], deep)
        case Err(e) => Err(e)
        case Ok(rest) => Ok([f] + rest)
  }

  /** `copy` fails exactly on a subtree holding an array, with AttributeError. */
  lemma {:induction false} CopyFailsOnArrays(g: Gen, fieldName: string, index: Index, deep: bool)
    ensures Copy(g, fieldName, index, deep).Err? <==> HasArray(g)
    ensures Copy(g, fieldName, index, deep).Err? ==> Copy(g, fieldName, index, deep).error == AttributeError
    decreases g, 1
  {
    if g.Composite? {
      CopyEachFailsOnArrays(g.fields, deep);
    }
  }

  lemma {:induction false} CopyEachFailsOnArrays(fs: seq<Gen>, deep: bool)
    ensures CopyEach(fs, deep).Err? <==> exists i :: 0 <= i < |fs| && HasArray(fs[i])
    ensures CopyEach(fs, deep).Err? ==> CopyEach(fs, deep).error == AttributeError
    decreases fs, 0
  {
    if fs != [] {
      CopyFailsOnArrays(fs[0], fs[0].info.fieldName, NoIndex, deep);
      CopyEachFailsOnArrays(fs[1..], deep);
      if exists i :: 0 <= i < |fs| && HasArray(fs[i]) {
        var i :| 0 <= i < |fs| && HasArray(fs[i]);
        if i > 0 { assert HasArray(fs[1..][i - 1]); }
      }
      if exists i :: 0 <= i < |fs[1..]| && HasArray(fs[1..][i]) {
        var i :| 0 <= i < |fs[1..]| && HasArray(fs[1..][i]);
        assert HasArray(fs[i + 1]);
      }
    }
  }

  /**
   * A copy carries the given name and index and the original's type, is
   * unrendered, is default when shallow, and keeps the original's defaultness
   * when deep.
   */
  lemma {:induction false} CopyProperties(g: Gen, fieldName: string, index: Index, deep: bool)
    requires Copy(g, fieldName, index, deep).Ok?
    ensures var c := Copy(g, fieldName, index, deep).value;
      c.info == Info(fieldName, g.info.rosType, index) && IsField(c) && Unrendered(c) &&
      !HasArray(c) && WellFormed(c) &&
      (!deep ==> IsDefault(c)) && (deep ==> (IsDefault(c) <==> IsDefault(g))) &&
      (deep && IsScalar(g) ==> c.cs == g.cs)
    decreases g, 1
  {
    if g.Composite? {
      CopyEachProperties(g.fields, deep);
    }
  }

  lemma {:induction false} CopyEachProperties(fs: seq<Gen>, deep: bool)
    requires CopyEach(fs, deep).Ok?
    ensures var cs := CopyEach(fs, deep).value;
      (forall i :: 0 <= i < |fs| ==> Unrendered(cs[i]) && cs[i].info.fieldName == fs[i].info.fieldName) &&
      (forall i :: 0 <= i < |fs| ==> !HasArray(cs[i]) && WellFormed(cs[i])) &&
      (!deep ==> forall i :: 0 <= i < |fs| ==> IsDefault(cs[i])) &&
      (deep ==> forall i :: 0 <= i < |fs| ==> (IsDefault(cs[i]) <==> IsDefault(fs[i])))
    decreases fs, 0
  {
    if fs != [] {
      CopyProperties(fs[0], fs[0].info.fieldName, NoIndex, deep);
      CopyEachProperties(fs[1..], deep);
      var cs := CopyEach(fs, deep).value;
      forall i | 0 <= i < |fs|
        ensures Unrendered(cs[i]) && cs[i].info.fieldName == fs[i].info.fieldName
        ensures !HasArray(cs[i]) && WellFormed(cs[i])
        ensures !deep ==> IsDefault(cs[i])
        ensures deep ==> (IsDefault(cs[i]) <==> IsDefault(fs[i]))
      {
        if i > 0 { assert cs[i] == CopyEach(fs[1..], deep).value[i - 1]; }
      }
    }
  }

  // ---------------------------------------------------------------------------
  // Names
  // ---------------------------------------------------------------------------

  function IndexText(i: Index): string
  {
    match i
    case NoIndex => ""
    case At(n) => NatToString(n)
    case LoopVar => "i"
    case RandomIndex(a) => "random_index(draw, " + a + ")"
  }

  /** `indexed_name`: the field name, followed by the index in brackets when there is one. */
  function IndexedName(info: Info): string
  {
    if info.index.NoIndex? then info.fieldName else info.fieldName + "[" + IndexText(info.index) + "]"
  }

  /** `full_name`: the parent's full name, a dot, and the node's indexed name. */
  function FullName(parentName: string, info: Info): string
  {
    parentName + "." + IndexedName(info)
  }

  // ---------------------------------------------------------------------------
  // Arrays
  // ---------------------------------------------------------------------------

  /** The shallow copies `[default_field.copy(parent, field_name, index=i) for i in xrange(n)]`. */
  function Copies(template: Gen, fieldName: string, n: nat): (r: Result<seq<Gen>>)
    ensures r.Ok? ==> |r.value| == n
    ensures r.Ok? ==> forall i :: 0 <= i < n ==> Copy(template, fieldName, At(i), false) == Ok(r.value[i])
    ensures r.Err? ==> n > 0 && Copy(template, fieldName, At(n - 1), false).Err?
    ensures r.Err? <==> n > 0 && HasArray(template)
    ensures r.Err? ==> r.error == AttributeError
  {
    if n == 0 then Ok([])
    else
      CopyFailsOnArrays(template, fieldName, At(n - 1), false);
      match Copies(template, fieldName, n - 1)
      case Err(e) => Err(e)
      case Ok(prefix) =>
        match Copy(template, fieldName, At(n - 1), false)
        case Err(e) => Err(e)
        case Ok(last) => Ok(prefix + [last])
  }

  /** The `FixedLengthArrayGenerator` constructor. */
  function NewFixedArray(fieldName: string, rosType: string, length: nat, template: Gen): Result<Gen>
  {
    if !IsField(template) then Err(TypeError)
    else match Copies(template, fieldName, length)
      case Err(e) => Err(e)
      case Ok(es) => Ok(FixedArray(Info(fieldName, rosType, NoIndex), length, es, None, false))
  }

  /** The `VariableLengthArrayGenerator` constructor: the template copied with index "i". */
  function NewVarArray(fieldName: string, rosType: string, template: Gen): Result<Gen>
  {
    if !IsField(template) then Err(TypeError)
    else match Copy(template, fieldName, LoopVar, false)
      case Err(e) => Err(e)
      case Ok(a) => Ok(VarArray(Info(fieldName, rosType, NoIndex), a, false))
  }

  /**
   * A fixed array of length N built from a field holds N default, unrendered
   * copies carrying the indices 0..N-1. A template that is itself an array is
   * refused with TypeError; a field holding an array somewhere below cannot be
   * copied, so a positive length raises AttributeError.
   */
  lemma FixedArrayHoldsCopies(fieldName: string, rosType: string, n: nat, template: Gen)
    ensures (IsField(template) && (n == 0 || !HasArray(template))) <==> NewFixedArray(fieldName, rosType, n, template).Ok?
    ensures !IsField(template) ==> NewFixedArray(fieldName, rosType, n, template) == Err(TypeError)
    ensures IsField(template) && HasArray(template) && n > 0 ==>
      NewFixedArray(fieldName, rosType, n, template) == Err(AttributeError)
    ensures var r := NewFixedArray(fieldName, rosType, n, template);
      r.Ok? ==>
        r.value.FixedArray? && r.value.length == n && |r.value.elems| == n && r.value.representative.None? &&
        WellFormed(r.value) && IsDefault(r.value) && Unrendered(r.value) &&
        forall i :: 0 <= i < n ==>
          r.value.elems[i].info == Info(fieldName, template.info.rosType, At(i)) && IsDefault(r.value.elems[i])
  {
    if IsField(template) {
      if Copies(template, fieldName, n).Ok? {
        var es := Copies(template, fieldName, n).value;
        forall i | 0 <= i < n
          ensures es[i].info == Info(fieldName, template.info.rosType, At(i))
          ensures IsDefault(es[i]) && Unrendered(es[i]) && IsField(es[i]) && WellFormed(es[i])
        {
          CopyProperties(template, fieldName, At(i), false);
        }
      }
    }
  }

  /** A variable array built from an array-free field holds one default template with index "i". */
  lemma VarArrayHoldsTemplate(fieldName: string, rosType: string, template: Gen)
    requires IsField(template) && !HasArray(template)
    ensures var r := NewVarArray(fieldName, rosType, template);
      r.Ok? && r.value.VarArray? && r.value.all.info == Info(fieldName, template.info.rosType, LoopVar) &&
      WellFormed(r.value) && IsDefault(r.value) && Unrendered(r.value) && Children(r.value) == []
  {
    CopyFailsOnArrays(template, fieldName, LoopVar, false);
    CopyProperties(template, fieldName, LoopVar, false);
  }

  /**
   * `some()`: the array with its representative element, created on first use
   * as a shallow copy of element 0 indexed by a random-index placeholder.
   * Zero-length and variable arrays raise UnsupportedOperationError, and so
   * does nothing else; copying an element 0 that holds an array raises
   * AttributeError, as other nodes, which have no `some`, do.
   */
  function Representative(g: Gen, parentName: string): (r: Result<Gen>)
    requires WellFormed(g)
    ensures r.Err? ==> r.error == UnsupportedOperationError || r.error == AttributeError
  {
    match g
    case FixedArray(info, n, es, rep, gen) =>
      if n == 0 then Err(UnsupportedOperationError)
      else if rep.Some? then Ok(g)
      else
        CopyFailsOnArrays(es[0], info.fieldName, RandomIndex(FullName(parentName, info)), false);
        (match Copy(es[0], info.fieldName, RandomIndex(FullName(parentName, info)), false)
         case Err(e) => Err(e)
         case Ok(r) => Ok(FixedArray(info, n, es, Some(r), gen)))
    case VarArray(_, _, _) => Err(UnsupportedOperationError)
    case _ => Err(AttributeError)
  }

  /**
   * `some()` on a non-empty fixed array yields a default, unrendered
   * representative, leaves the elements alone, and keeps returning the same
   * representative until it is assigned.
   */
  lemma RepresentativeIsStable(g: Gen, parentName: string)
    requires WellFormed(g) && g.FixedArray?
    ensures g.length == 0 ==> Representative(g, parentName) == Err(UnsupportedOperationError)
    ensures var r := Representative(g, parentName);
      r.Ok? ==>
        r.value.FixedArray? && r.value.elems == g.elems && r.value.length == g.length &&
        r.value.representative.Some? && WellFormed(r.value) &&
        (g.representative.Some? ==> r.value == g) &&
        (g.representative.None? ==>
           IsDefault(r.value.representative.value) && Unrendered(r.value.representative.value) &&
           r.value.representative.value.info.index == RandomIndex(FullName(parentName, g.info))) &&
        Representative(r.value, parentName) == r
  {
    if g.length > 0 && g.representative.None? {
      var c := Copy(g.elems[0], g.info.fieldName, RandomIndex(FullName(parentName, g.info)), false);
      if c.Ok? {
        CopyProperties(g.elems[0], g.info.fieldName, RandomIndex(FullName(parentName, g.info)), false);
      }
    }
  }

  /** The lowest index whose element is default. */
  function FirstDefault(es: seq<Gen>): (r: Option<nat>)
    ensures r.Some? ==> r.value < |es| && IsDefault(es[r.value]) && forall j :: 0 <= j < r.value ==> !IsDefault(es[j])
    ensures r.None? ==> forall j :: 0 <= j < |es| ==> !IsDefault(es[j])
  {
    if es == [] then None
    else if IsDefault(es[0]) then Some(0)
    else match FirstDefault(es[1..])
      case None => None
      case Some(k) => Some(k + 1)
  }

  /** The representative placed at slot `k`, taking that slot's index. */
  function Place(es: seq<Gen>, k: nat, rep: Gen): seq<Gen>
    requires k < |es|
  {
    es[k := rep.(info := rep.info.(index := At(k)))]
  }

  /**
   * `_assign_some` with the guard it evidently needs: nothing to do without a
   * pending representative; otherwise the representative replaces the lowest
   * default element (InconsistencyError if none is default) and is cleared.
   */
  function AssignSome(g: Gen): (r: Result<Gen>)
    requires g.FixedArray?
    ensures r.Ok? ==> r.value.FixedArray? && r.value.representative.None? && |r.value.elems| == |g.elems|
  {
    match g.representative
    case None => Ok(g)
    case Some(rep) =>
      match FirstDefault(g.elems)
      case None => Err(InconsistencyError)
      case Some(k) => Ok(g.(elems := Place(g.elems, k, rep), representative := None))
  }

  /** `_assign_some` as written: it reads `_some.index` even when `_some` is None. */
  function AssignSomeAsWritten(g: Gen): Result<Gen>
    requires g.FixedArray?
  {
    match FirstDefault(g.elems)
    case None => Err(InconsistencyError)
    case Some(k) =>
      match g.representative
      case None => Err(AttributeError)
      case Some(rep) => Ok(g.(elems := Place(g.elems, k, rep), representative := None))
  }

  /**
   * The representative lands on the lowest default slot, with that slot's
   * index; every other slot is unchanged, and with every slot constrained the
   * call raises InconsistencyError.
   */
  lemma AssignSomeLowestDefault(g: Gen)
    requires g.FixedArray? && g.representative.Some?
    ensures AssignSome(g).Err? <==> forall j :: 0 <= j < |g.elems| ==> !IsDefault(g.elems[j])
    ensures AssignSome(g).Err? ==> AssignSome(g).error == InconsistencyError
    ensures AssignSome(g).Ok? ==>
      exists k :: 0 <= k < |g.elems| && IsDefault(g.elems[k]) &&
        (forall j :: 0 <= j < k ==> !IsDefault(g.elems[j])) &&
        AssignSome(g).value.elems[k] == g.representative.value.(info := g.representative.value.info.(index := At(k))) &&
        (forall j :: 0 <= j < |g.elems| && j != k ==> AssignSome(g).value.elems[j] == g.elems[j])
  {
  }

  /** As written, rendering-time assignment fails whenever no representative is pending. */
  lemma AssignSomeAsWrittenNeedsRepresentative(g: Gen)
    requires g.FixedArray? && g.representative.None?
    ensures AssignSomeAsWritten(g).Err?
    ensures AssignSome(g) == Ok(g)
    ensures FirstDefault(g.elems).Some? ==> AssignSomeAsWritten(g) == Err(AttributeError)
  {
  }

  /** With a pending representative the two versions agree. */
  lemma AssignSomeAgrees(g: Gen)
    requires g.FixedArray? && g.representative.Some?
    ensures AssignSomeAsWritten(g) == AssignSome(g)
  {
  }

  /**
   * Example: of four slots with slot 1 pinned by a constraint, the
   * representative goes to slot 0; with slot 0 also pinned it goes to slot 2.
   */
  lemma AssignSomeSkipsPinned(free: Gen, pinned: Gen, rep: Gen)
    requires IsDefault(free) && !IsDefault(pinned)
    ensures var g := FixedArray(Info("a", "int32", NoIndex), 4, [free, pinned, free, free], Some(rep), false);
      AssignSome(g).Ok? && AssignSome(g).value.elems[0].info.index == At(0) &&
      AssignSome(g).value.elems[1] == pinned
    ensures var h := FixedArray(Info("a", "int32", NoIndex), 4, [pinned, pinned, free, free], Some(rep), false);
      AssignSome(h).Ok? && AssignSome(h).value.elems[2] == rep.(info := rep.info.(index := At(2))) &&
      AssignSome(h).value.elems[..2] == [pinned, pinned]
  {
    var es := [pinned, pinned, free, free];
    assert FirstDefault(es[1..][1..]) == Some(0);
    assert FirstDefault(es) == Some(2);
  }

  /**
   * `_assign_some` on the element list itself: the representative replaces the
   * lowest default slot in place.
   */
  method AssignSomeInPlace(elems: array<Gen>, rep: Gen) returns (raised: Option<Error>)
    modifies elems
    ensures raised.Some? <==> FirstDefault(old(elems[..])).None?
    ensures raised.Some? ==> raised == Some(InconsistencyError) && elems[..] == old(elems[..])
    ensures raised.None? ==> elems[..] == Place(old(elems[..]), FirstDefault(old(elems[..])).value, rep)
  {
    var i := 0;
    while i < elems.Length && !IsDefault(elems[i])
      invariant 0 <= i <= elems.Length
      invariant forall j :: 0 <= j < i ==> !IsDefault(elems[j])
    {
      i := i + 1;
    }
    FirstDefaultIsFirst(elems[..], i);
    if i == elems.Length {
      return Some(InconsistencyError);
    }
    elems[i] := rep.(info := rep.info.(index := At(i)));
    return None;
  }

  /** The first default element found by scanning is the one FirstDefault names. */
  lemma {:induction false} FirstDefaultIsFirst(es: seq<Gen>, i: nat)
    requires i <= |es| && forall j :: 0 <= j < i ==> !IsDefault(es[j])
    requires i < |es| ==> IsDefault(es[i])
    ensures FirstDefault(es) == (if i < |es| then Some(i) else None)
  {
    if es != [] && i > 0 {
      FirstDefaultIsFirst(es[1..], i - 1);
    }
  }

  /**
   * The broadcast loop of a fixed array over the element list itself: each
   * element in turn takes the constraint, and the loop stops at the first
   * element that raises.
   */
  method BroadcastInPlace(elems: array<Gen>, c: Constraint) returns (raised: Option<Error>)
    modifies elems
    ensures (elems[..], raised) == ApplyEach(old(elems[..]), c)
  {
    ghost var es := elems[..];
    var i := 0;
    while i < elems.Length
      invariant 0 <= i <= elems.Length && i <= Accepted(es, c)
      invariant forall j :: 0 <= j < i ==> elems[j] == Apply(es[j], c).node
      invariant forall j :: i <= j < elems.Length ==> elems[j] == es[j]
    {
      var r := Apply(elems[i], c);
      elems[i] := r.node;
      if r.raised.Some? {
        BroadcastResult(es, elems[..], c);
        return r.raised;
      }
      i := i + 1;
    }
    BroadcastResult(es, elems[..], c);
    return None;
  }

  /** The element list a broadcast leaves, characterised slot by slot. */
  lemma BroadcastResult(es: seq<Gen>, after: seq<Gen>, c: Constraint)
    requires |after| == |es|
    requires forall j :: 0 <= j < |es| && j <= Accepted(es, c) ==> after[j] == Apply(es[j], c).node
    requires forall j :: Accepted(es, c) < j < |es| ==> after[j] == es[j]
    ensures after == ApplyEach(es, c).0
    ensures ApplyEach(es, c).1 == if Accepted(es, c) < |es| then Apply(es[Accepted(es, c)], c).raised else None
  {
    if es == [] {
    } else {
      forall j | 0 <= j < |es|
        ensures after[j] == ApplyEach(es, c).0[j]
      {
        ApplyEachStopsAtFirstError(es, c, j);
      }
      ApplyEachRaises(es, c);
    }
  }

  // ---------------------------------------------------------------------------
  // Default nodes for declared fields
  // ---------------------------------------------------------------------------

  /** The shape of a declared field: a single value, a fixed-length array or a variable-length one. */
  datatype Shape = Single | FixedLength(length: nat) | VariableLength

  /** A field declaration of the message table: its element type and shape. */
  datatype TypeToken = TypeToken(rosType: string, shape: Shape)

  /** The node a single value of a type gets: numeric, other built-in scalar, or composite. */
  function Element(fieldName: string, rosType: string): (r: Gen)
    ensures IsField(r) && !HasArray(r) && IsDefault(r) && Unrendered(r) && WellFormed(r)
    ensures r.info == Info(fieldName, rosType, NoIndex)
  {
    var info := Info(fieldName, rosType, NoIndex);
    if rosType in NumberTypes then Numeric(info, Unconstrained, None, None, false)
    else if rosType in BuiltinTypes then Simple(info, Unconstrained, false)
    else Composite(info, [], false)
  }

  /**
   * The default node for a declared field (standing for `FieldStrategy.make_default`,
   * which is not part of this model): an element node, or an array of them.
   */
  function MakeDefault(fieldName: string, token: TypeToken): (r: Gen)
    ensures IsDefault(r) && Unrendered(r) && WellFormed(r)
    ensures r.info == Info(fieldName, token.rosType, NoIndex)
    ensures token.shape.Single? <==> IsField(r)
    ensures token.shape.FixedLength? ==> r.FixedArray? && r.length == token.shape.length
    ensures token.shape.VariableLength? ==> r.VarArray?
  {
    var e := Element(fieldName, token.rosType);
    match token.shape
    case Single => e
    case FixedLength(n) =>
      FixedArrayHoldsCopies(fieldName, token.rosType, n, e);
      NewFixedArray(fieldName, token.rosType, n, e).value
    case VariableLength =>
      VarArrayHoldsTemplate(fieldName, token.rosType, e);
      NewVarArray(fieldName, token.rosType, e).value
  }
}
