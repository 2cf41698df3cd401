/**
 * Rendering of field-generator nodes: `to_python` (one node's line),
 * `assumptions` (its filter line) and `tree_to_python` (a node followed by
 * its whole subtree). Each render requires the node to be unrendered and
 * marks it rendered. Indentation is not modelled.
 */
module Rendering {
  import opened Base
  import opened RosTypes
  import opened Conditions
  import opened Generators

  // ---------------------------------------------------------------------------
  // Size of a subtree (counting the pending representative of a fixed array)
  // ---------------------------------------------------------------------------

  function Size(g: Gen): (r: nat)
    ensures r >= 1
    decreases g, 1
  {
    match g
    case Composite(_, fs, _) => 1 + SumSize(fs)
    case FixedArray(_, _, es, rep, _) => 1 + SumSize(es) + (if rep.Some? then Size(rep.value) else 0)
    case VarArray(_, a, _) => 1 + Size(a)
    case _ => 1
  }

  function SumSize(gs: seq<Gen>): (r: nat)
    ensures forall i :: 0 <= i < |gs| ==> Size(gs[i]) <= r
    ensures |gs| > 0 ==> r >= 1 + SumSize(gs[1..])
    decreases gs, 0
  {
    if gs == [] then 0 else Size(gs[0]) + SumSize(gs[1..])
  }

  lemma SizeIgnoresInfo(g: Gen, info: Info)
    ensures Size(g.(info := info)) == Size(g)
  {
  }

  lemma {:induction false} SumSizeUpdate(gs: seq<Gen>, k: nat, x: Gen)
    requires k < |gs|
    ensures SumSize(gs[k := x]) == SumSize(gs) - Size(gs[k]) + Size(x)
  {
    if k > 0 {
      assert gs[k := x][1..] == gs[1..][k - 1 := x];
      SumSizeUpdate(gs[1..], k - 1, x);
    } else {
      assert gs[k := x][1..] == gs[1..];
    }
  }

  /** Placing the representative never makes the element list outgrow the array. */
  lemma PlacedElementsSmaller(g: Gen)
    requires g.FixedArray? && AssignSome(g).Ok?
    ensures SumSize(AssignSome(g).value.elems) < Size(g)
  {
    if g.representative.Some? {
      var rep := g.representative.value;
      var k := FirstDefault(g.elems).value;
      SumSizeUpdate(g.elems, k, rep.(info := rep.info.(index := At(k))));
      SizeIgnoresInfo(rep, rep.info.(index := At(k)));
    }
  }

  // ---------------------------------------------------------------------------
  // to_python
  // ---------------------------------------------------------------------------

  /** The node with its own `generated` flag set. */
  function MarkRendered(g: Gen): (r: Gen)
    ensures r.generated && r.info == g.info
  {
    match g
    case Simple(info, cs, _) => Simple(info, cs, true)
    case Numeric(info, cs, lo, hi, _) => Numeric(info, cs, lo, hi, true)
    case Composite(info, fs, _) => Composite(info, fs, true)
    case FixedArray(info, n, es, rep, _) => FixedArray(info, n, es, rep, true)
    case VarArray(info, a, _) => VarArray(info, a, true)
  }

  /** The strategy of a scalar: its constant, a draw from its pool, or the default draw. */
  function ScalarStrategy(cs: Constraints, lib: string, fallback: string): string
  {
    if cs.constant.Some? then ValueToPython(cs.constant.value)
    else if cs.pool.Some? then "draw(" + lib + ".sampled_from(" + ValueToPython(VTuple(cs.pool.value)) + "))"
    else fallback
  }

  /** The keyword arguments a numeric default draw passes: its bounds, lower first. */
  function BoundArgs(lo: Option<Value>, hi: Option<Value>): seq<string>
  {
    (if lo.Some? then ["min_value=" + ValueToPython(lo.value)] else []) +
    (if hi.Some? then ["max_value=" + ValueToPython(hi.value)] else [])
  }

  function ListsDraw(lib: string, minSize: string, maxSize: string): string
  {
    "draw(" + lib + ".lists(min_size=" + minSize + ", max_size=" + maxSize + "))"
  }

  /** `to_python` of a scalar: its full name assigned its strategy. */
  function ScalarText(g: Gen, parentName: string, lib: string): string
    requires IsScalar(g)
  {
    var name := RosTypeToName(g.info.rosType);
    FullName(parentName, g.info) + " = " +
      ScalarStrategy(g.cs, lib,
        if g.Simple? then "draw(" + name + "())"
        else "draw(" + name + "(" + Join(", ", BoundArgs(g.minValue, g.maxValue)) + "))")
  }

  /** `to_python` of a composite: the default draw, or the message class built from "pkg/Msg". */
  function CompositeText(g: Gen, parentName: string, lib: string): Result<string>
    requires g.Composite?
  {
    var full := FullName(parentName, g.info);
    if IsDefault(g) then Ok(full + " = draw(" + RosTypeToName(g.info.rosType) + "())")
    else match SplitPair(g.info.rosType, '/')
      case Err(e) => Err(e)
      case Ok(parts) => Ok(full + " = " + parts.0 + "." + parts.1 + "()")
  }

  /**
   * `_assign_some` in the chosen version; whatever the as-written version
   * places, the corrected one places too.
   */
  function Placed(g: Gen, corrected: bool): (r: Result<Gen>)
    requires g.FixedArray?
    ensures r.Ok? ==> AssignSome(g) == r
    ensures corrected ==> r == AssignSome(g)
    ensures !corrected ==> r == AssignSomeAsWritten(g)
  {
    if corrected then AssignSome(g)
    else
      if g.representative.Some? then AssignSomeAgrees(g); AssignSomeAsWritten(g)
      else AssignSomeAsWritten(g)
  }

  /** `to_python` of a fixed array: place the representative, then draw a list of the array's length. */
  function FixedArrayRender(g: Gen, parentName: string, lib: string, corrected: bool): Result<(string, Gen)>
    requires g.FixedArray?
  {
    match Placed(g, corrected)
    case Err(e) => Err(e)
    case Ok(h) =>
      Ok((FullName(parentName, g.info) + " = " + ListsDraw(lib, NatToString(g.length), NatToString(g.length)),
          MarkRendered(h)))
  }

  /**
   * `to_python` of one node under a parent with full name `parentName`: the
   * emitted line(s) and the node afterwards. A variable array renders its
   * template's whole subtree inside a loop over the drawn list. `corrected`
   * chooses between the corrected and the as-written `_assign_some` of fixed
   * arrays and `tree_to_python` of variable arrays.
   */
  function RenderWith(g: Gen, parentName: string, lib: string, corrected: bool): Result<(string, Gen)>
    decreases Size(g), 0, 0
  {
    if g.generated then Err(AssertionError)
    else match g
      case Composite(_, _, _) =>
        (match CompositeText(g, parentName, lib)
         case Err(e) => Err(e)
         case Ok(line) => Ok((line, MarkRendered(g))))
      case FixedArray(_, _, _, _, _) => FixedArrayRender(g, parentName, lib, corrected)
      case VarArray(info, a, _) =>
        (match TreeRenderWith(a, parentName, lib, corrected)
         case Err(e) => Err(e)
         case Ok(sub) =>
           var full := FullName(parentName, info);
           Ok((full + " = " + ListsDraw(lib, "0", "256") + "\nfor i in xrange(len(" + full + ")):\n" + sub.0,
               VarArray(info, sub.1, true))))
      case _ => Ok((ScalarText(g, parentName, lib), MarkRendered(g)))
  }

  /** `assumptions`: the filter line of a scalar's condition, if it has one. */
  function Assumptions(g: Gen, parentName: string): Option<string>
  {
    if (g.Simple? || g.Numeric?) && g.cs.condition.Some? then
      Some(ToPython(g.cs.condition.value, FullName(parentName, g.info)))
    else None
  }

  /**
   * `tree_to_python`: the node's own line followed by each child's subtree
   * (composite children under the composite's name, array elements under the
   * array's parent), and a scalar's filter line after its own.
   */
  function TreeRenderWith(g: Gen, parentName: string, lib: string, corrected: bool): Result<(string, Gen)>
    decreases Size(g), 1, 0
  {
    if g.generated then Err(AssertionError)
    else match g
      case Composite(info, fs, _) =>
        (match RenderWith(g, parentName, lib, corrected)
         case Err(e) => Err(e)
         case Ok(own) =>
           match TreeRenderEach(fs, FullName(parentName, info), lib, corrected)
           case Err(e) => Err(e)
           case Ok(rest) => Ok((Join("\n", [own.0] + rest.0), Composite(info, rest.1, true))))
      case FixedArray(_, _, _, _, _) =>
        (match Placed(g, corrected)
         case Err(e) => Err(e)
         case Ok(h) =>
           PlacedElementsSmaller(g);
           match RenderWith(g, parentName, lib, corrected)
           case Err(e) => Err(e)
           case Ok(own) =>
             match TreeRenderEach(h.elems, parentName, lib, corrected)
             case Err(e) => Err(e)
             case Ok(rest) => Ok((Join("\n", [own.0] + rest.0), h.(elems := rest.1, generated := true))))
      case VarArray(_, _, _) =>
        // as written, the flag is set before `to_python`, whose assertion then fails
        if corrected then RenderWith(g, parentName, lib, corrected) else Err(AssertionError)
      case _ =>
        match RenderWith(g, parentName, lib, corrected)
        case Err(e) => Err(e)
        case Ok(own) =>
          match Assumptions(g, parentName)
          case None => Ok(own)
          case Some(a) => Ok((own.0 + "\n" + a, own.1))
  }

  function TreeRenderEach(gs: seq<Gen>, parentName: string, lib: string, corrected: bool)
    : (r: Result<(seq<string>, seq<Gen>)>)
    ensures r.Ok? ==> |r.value.0| == |gs| && |r.value.1| == |gs|
    decreases SumSize(gs), 2, 0
  {
    if gs == [] then Ok(([], []))
    else match TreeRenderWith(gs[0], parentName, lib, corrected)
      case Err(e) => Err(e)
      case Ok(first) =>
        match TreeRenderEach(gs[1..], parentName, lib, corrected)
        case Err(e) => Err(e)
        case Ok(rest) => Ok(([first.0] + rest.0, [first.1] + rest.1))
  }

  function Render(g: Gen, parentName: string, lib: string): Result<(string, Gen)>
  {
    RenderWith(g, parentName, lib, true)
  }

  function TreeRender(g: Gen, parentName: string, lib: string): Result<(string, Gen)>
  {
    TreeRenderWith(g, parentName, lib, true)
  }

  function TreeRenderAsWritten(g: Gen, parentName: string, lib: string): Result<(string, Gen)>
  {
    TreeRenderWith(g, parentName, lib, false)
  }

  // ---------------------------------------------------------------------------
  // Properties
  // ---------------------------------------------------------------------------

  /** Every node of the subtree is rendered and no representative is pending. */
  predicate AllRendered(g: Gen)
    decreases g
  {
    g.generated &&
    match g
    case Composite(_, fs, _) => forall i :: 0 <= i < |fs| ==> AllRendered(fs[i])
    case FixedArray(_, _, es, rep, _) => rep.None? && forall i :: 0 <= i < |es| ==> AllRendered(es[i])
    case VarArray(_, a, _) => AllRendered(a)
    case _ => true
  }

  /**
   * A node renders at most once: a rendered node refuses both renders with
   * AssertionError, and a successful render leaves the node rendered, under the
   * same name, type and index.
   */
  lemma RenderAtMostOnce(g: Gen, parentName: string, lib: string)
    ensures g.generated ==> Render(g, parentName, lib) == Err(AssertionError)
    ensures g.generated ==> TreeRender(g, parentName, lib) == Err(AssertionError)
    ensures var r := Render(g, parentName, lib);
      r.Ok? ==> (r.value.1.generated && r.value.1.info == g.info &&
                 Render(r.value.1, parentName, lib) == Err(AssertionError) &&
                 TreeRender(r.value.1, parentName, lib) == Err(AssertionError))
    ensures var r := TreeRender(g, parentName, lib);
      r.Ok? ==> (r.value.1.generated && r.value.1.info == g.info &&
                 Render(r.value.1, parentName, lib) == Err(AssertionError) &&
                 TreeRender(r.value.1, parentName, lib) == Err(AssertionError))
  {
    var r := TreeRender(g, parentName, lib);
    if r.Ok? && g.FixedArray? {
      assert r.value.1.info == AssignSome(g).value.info;
    }
  }

  /** Each variant's render is its own line; only a fixed array's elements change besides the flag. */
  lemma RenderByVariant(g: Gen, parentName: string, lib: string, corrected: bool)
    requires !g.generated && !g.VarArray?
    ensures IsScalar(g) ==>
      RenderWith(g, parentName, lib, corrected) == Ok((ScalarText(g, parentName, lib), MarkRendered(g)))
    ensures g.Composite? ==>
      RenderWith(g, parentName, lib, corrected) ==
        match CompositeText(g, parentName, lib) case Err(e) => Err(e) case Ok(line) => Ok((line, MarkRendered(g)))
    ensures g.FixedArray? ==> RenderWith(g, parentName, lib, corrected) == FixedArrayRender(g, parentName, lib, corrected)
  {
  }

  /** A scalar with a constant is assigned that constant. */
  lemma ConstantLine(g: Gen, parentName: string, lib: string)
    requires IsScalar(g) && g.cs.constant.Some?
    ensures ScalarText(g, parentName, lib) == FullName(parentName, g.info) + " = " + ValueToPython(g.cs.constant.value)
  {
  }

  /** A scalar with a pool and no constant is drawn from the pool. */
  lemma PoolLine(g: Gen, parentName: string, lib: string)
    requires IsScalar(g) && g.cs.constant.None? && g.cs.pool.Some?
    ensures ScalarText(g, parentName, lib) ==
      FullName(parentName, g.info) + " = draw(" + lib + ".sampled_from(" + ValueToPython(VTuple(g.cs.pool.value)) + "))"
  {
  }

  /** The bound arguments: only the bounds that are set, the lower one first, comma-separated. */
  lemma BoundArgsText(lo: Option<Value>, hi: Option<Value>)
    ensures lo.None? && hi.None? ==> Join(", ", BoundArgs(lo, hi)) == ""
    ensures lo.Some? && hi.None? ==> Join(", ", BoundArgs(lo, hi)) == "min_value=" + ValueToPython(lo.value)
    ensures lo.None? && hi.Some? ==> Join(", ", BoundArgs(lo, hi)) == "max_value=" + ValueToPython(hi.value)
    ensures lo.Some? && hi.Some? ==>
      Join(", ", BoundArgs(lo, hi)) == "min_value=" + ValueToPython(lo.value) + ", " + "max_value=" + ValueToPython(hi.value)
  {
    if lo.Some? && hi.Some? {
      JoinTwo(", ", "min_value=" + ValueToPython(lo.value), "max_value=" + ValueToPython(hi.value));
    }
  }

  /**
   * A default composite draws from its type's generator; a constrained one
   * builds its message class, which needs the type to be "pkg/Msg" with exactly
   * one separator (ValueError otherwise).
   */
  lemma CompositeLine(g: Gen, parentName: string, lib: string)
    requires g.Composite?
    ensures var r := CompositeText(g, parentName, lib);
      var full := FullName(parentName, g.info);
      (IsDefault(g) ==> r == Ok(full + " = draw(" + RosTypeToName(g.info.rosType) + "())")) &&
      (!IsDefault(g) ==> (r.Ok? <==> Count(g.info.rosType, '/') == 1)) &&
      (!IsDefault(g) && r.Err? ==> r.error == ValueError) &&
      (!IsDefault(g) && r.Ok? ==>
         exists pkg, msg :: g.info.rosType == pkg + "/" + msg && '/' !in pkg && '/' !in msg &&
           r.value == full + " = " + pkg + "." + msg + "()")
  {
    if !IsDefault(g) {
      var sp := SplitPair(g.info.rosType, '/');
      if sp.Ok? {
        assert g.info.rosType == sp.value.0 + "/" + sp.value.1;
      }
    }
  }

  /**
   * A fixed array's line draws a list of exactly its length, after the pending
   * representative has been placed; the render fails exactly when the placing
   * does. As written, the render fails whenever no representative is pending,
   * with AttributeError when a slot is free, and agrees with the corrected one
   * otherwise.
   */
  lemma FixedArrayLine(g: Gen, parentName: string, lib: string)
    requires g.FixedArray?
    ensures g.representative.None? ==> FixedArrayRender(g, parentName, lib, false).Err?
    ensures g.representative.None? && FirstDefault(g.elems).Some? ==>
      FixedArrayRender(g, parentName, lib, false) == Err(AttributeError)
    ensures g.representative.Some? ==> FixedArrayRender(g, parentName, lib, false) == FixedArrayRender(g, parentName, lib, true)
    ensures var r := FixedArrayRender(g, parentName, lib, true);
      (r.Ok? <==> AssignSome(g).Ok?) &&
      (r.Err? ==> r.error == InconsistencyError) &&
      (r.Ok? ==>
         r.value.0 == FullName(parentName, g.info) + " = " + ListsDraw(lib, NatToString(g.length), NatToString(g.length)) &&
         r.value.1.FixedArray? && r.value.1.generated && r.value.1.length == g.length &&
         r.value.1.elems == AssignSome(g).value.elems && r.value.1.representative.None?)
  {
  }

  /** A scalar's subtree is its line, followed on the next line by its filter when it has a condition. */
  lemma ScalarTreeHasFilter(g: Gen, parentName: string, lib: string)
    requires IsScalar(g) && !g.generated
    ensures var own := Render(g, parentName, lib).value.0;
      TreeRender(g, parentName, lib).Ok? &&
      (g.cs.condition.None? ==> TreeRender(g, parentName, lib).value.0 == own) &&
      (g.cs.condition.Some? ==>
         TreeRender(g, parentName, lib).value.0 ==
           own + "\n" + ToPython(g.cs.condition.value, FullName(parentName, g.info)))
  {
  }

  /** A successful subtree render leaves every node of the subtree rendered. */
  lemma {:induction false} TreeRenderRendersAll(g: Gen, parentName: string, lib: string, corrected: bool)
    requires TreeRenderWith(g, parentName, lib, corrected).Ok?
    ensures AllRendered(TreeRenderWith(g, parentName, lib, corrected).value.1)
    decreases Size(g), 1, 0
  {
    match g
    case Composite(info, fs, _) =>
      TreeRenderEachRendersAll(fs, FullName(parentName, info), lib, corrected);
    case FixedArray(_, _, _, _, _) =>
      var h := Placed(g, corrected).value;
      PlacedElementsSmaller(g);
      TreeRenderEachRendersAll(h.elems, parentName, lib, corrected);
    case VarArray(_, a, _) =>
      TreeRenderRendersAll(a, parentName, lib, corrected);
    case _ =>
  }

  lemma {:induction false} TreeRenderEachRendersAll(gs: seq<Gen>, parentName: string, lib: string, corrected: bool)
    requires TreeRenderEach(gs, parentName, lib, corrected).Ok?
    ensures forall i :: 0 <= i < |gs| ==> AllRendered(TreeRenderEach(gs, parentName, lib, corrected).value.1[i])
    decreases SumSize(gs), 2, 0
  {
    if gs != [] {
      TreeRenderRendersAll(gs[0], parentName, lib, corrected);
      TreeRenderEachRendersAll(gs[1..], parentName, lib, corrected);
      var r := TreeRenderEach(gs, parentName, lib, corrected).value.1;
      forall i | 0 <= i < |gs|
        ensures AllRendered(r[i])
      {
        if i > 0 { assert r[i] == TreeRenderEach(gs[1..], parentName, lib, corrected).value.1[i - 1]; }
      }
    }
  }

  /**
   * The errors a render can raise: a second render, a malformed message type,
   * or a fixed array with no free slot; as written also a fixed array with no
   * pending representative.
   */
  predicate RenderError(e: Error, corrected: bool)
  {
    e == AssertionError || e == ValueError || e == InconsistencyError || (!corrected && e == AttributeError)
  }

  lemma {:induction false} RenderRaises(g: Gen, parentName: string, lib: string, corrected: bool)
    ensures RenderWith(g, parentName, lib, corrected).Err? ==> RenderError(RenderWith(g, parentName, lib, corrected).error, corrected)
    decreases Size(g), 0, 0
  {
    if !g.generated {
      match g
      case Composite(_, _, _) => CompositeLine(g, parentName, lib);
      case VarArray(_, a, _) => TreeRenderRaises(a, parentName, lib, corrected);
      case _ =>
    }
  }

  lemma {:induction false} TreeRenderRaises(g: Gen, parentName: string, lib: string, corrected: bool)
    ensures TreeRenderWith(g, parentName, lib, corrected).Err? ==> RenderError(TreeRenderWith(g, parentName, lib, corrected).error, corrected)
    decreases Size(g), 1, 0
  {
    RenderRaises(g, parentName, lib, corrected);
    if !g.generated {
      match g
      case Composite(info, fs, _) => TreeRenderEachRaises(fs, FullName(parentName, info), lib, corrected);
      case FixedArray(_, _, _, _, _) =>
        if Placed(g, corrected).Ok? {
          PlacedElementsSmaller(g);
          TreeRenderEachRaises(Placed(g, corrected).value.elems, parentName, lib, corrected);
        }
      case _ =>
    }
  }

  lemma {:induction false} TreeRenderEachRaises(gs: seq<Gen>, parentName: string, lib: string, corrected: bool)
    ensures TreeRenderEach(gs, parentName, lib, corrected).Err? ==> RenderError(TreeRenderEach(gs, parentName, lib, corrected).error, corrected)
    decreases SumSize(gs), 2, 0
  {
    if gs != [] {
      TreeRenderRaises(gs[0], parentName, lib, corrected);
      TreeRenderEachRaises(gs[1..], parentName, lib, corrected);
    }
  }

  /** As written, `tree_to_python` of a variable array always fails; corrected, it is its `to_python`. */
  lemma VarArrayTreeAsWritten(g: Gen, parentName: string, lib: string)
    requires g.VarArray?
    ensures TreeRenderAsWritten(g, parentName, lib) == Err(AssertionError)
    ensures TreeRender(g, parentName, lib) == Render(g, parentName, lib)
  {
  }

  /**
   * Example: a variable array of messages that themselves hold a variable array
   * cannot render as written, while the corrected version renders it.
   */
  lemma NestedVarArrayExample()
    ensures var inner := VarArray(Info("inner", "int32", NoIndex),
                                  Numeric(Info("inner", "int32", LoopVar), Unconstrained, None, None, false), false);
      var outer := VarArray(Info("outer", "pkg/A", NoIndex),
                            Composite(Info("outer", "pkg/A", LoopVar), [inner], false), false);
      RenderWith(outer, "msg", "strategies", false) == Err(AssertionError) &&
      RenderWith(outer, "msg", "strategies", true).Ok?
  {
    var innerAll := Numeric(Info("inner", "int32", LoopVar), Unconstrained, None, None, false);
    var inner := VarArray(Info("inner", "int32", NoIndex), innerAll, false);
    var template := Composite(Info("outer", "pkg/A", LoopVar), [inner], false);
    var outer := VarArray(Info("outer", "pkg/A", NoIndex), template, false);
    var pn := FullName("msg", template.info);
    assert [inner][1..] == [];
    assert IsDefault(template);
    assert RenderWith(template, "msg", "strategies", false).Ok?;
    assert RenderWith(template, "msg", "strategies", true).Ok?;
    assert TreeRenderWith(inner, pn, "strategies", false) == Err(AssertionError);
    assert TreeRenderEach([inner], pn, "strategies", false) == Err(AssertionError);
    assert TreeRenderWith(template, "msg", "strategies", false) == Err(AssertionError);
    assert RenderWith(innerAll, pn, "strategies", true).Ok?;
    assert TreeRenderWith(innerAll, pn, "strategies", true).Ok?;
    assert RenderWith(inner, pn, "strategies", true).Ok?;
    assert TreeRenderWith(inner, pn, "strategies", true).Ok?;
    assert TreeRenderEach([inner], pn, "strategies", true).Ok?;
    assert TreeRenderWith(template, "msg", "strategies", true).Ok?;
  }
}
