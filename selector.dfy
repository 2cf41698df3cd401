/**
 * The path walk of a selector (a reference from one field's constraint to
 * another field of the same message): from the message's fields, each step
 * names a field, takes the element at a position of an array, takes all
 * elements of an array, or takes one unspecified element; every node reached must already be rendered, or the walk raises
 * ResolutionError with that node's full name. What the selector renders as
 * once resolved is not part of this model.
 */
module Selectors {
  import opened Base
  import opened Generators

  /** A node together with the full name of its parent. */
  datatype Part = Part(parentName: string, node: Gen)

  /** Where the walk stands: the message itself, one node, or several nodes at once. */
  datatype Focus = Root(name: string, fields: seq<Gen>) | One(part: Part) | Many(parts: seq<Part>)

  /** The field called `n`, if any (field names are distinct). */
  function FindField(fs: seq<Gen>, n: string): (r: Option<Gen>)
    ensures r.Some? ==> r.value in fs && r.value.info.fieldName == n
    ensures r.None? ==> forall i :: 0 <= i < |fs| ==> fs[i].info.fieldName != n
  {
    if fs == [] then None
    else if fs[0].info.fieldName == n then Some(fs[0])
    else FindField(fs[1..], n)
  }

  predicate PartsWellFormed(ps: seq<Part>)
  {
    forall i :: 0 <= i < |ps| ==> WellFormed(ps[i].node)
  }

  predicate FocusWellFormed(f: Focus)
  {
    match f
    case Root(_, fs) => forall i :: 0 <= i < |fs| ==> WellFormed(fs[i])
    case One(p) => WellFormed(p.node)
    case Many(ps) => PartsWellFormed(ps)
  }

  /** `generated` of what the walk reached (the message itself is not checked). */
  predicate Generated(f: Focus)
  {
    match f
    case Root(_, _) => true
    case One(p) => p.node.generated
    case Many(ps) => forall i :: 0 <= i < |ps| ==> ps[i].node.generated
  }

  function PartName(p: Part): string
  {
    FullName(p.parentName, p.node.info)
  }

  function PartNames(ps: seq<Part>): (r: seq<string>)
    ensures |r| == |ps|
  {
    if ps == [] then [] else ["'" + PartName(ps[0]) + "'"] + PartNames(ps[1..])
  }

  /**
   * `full_name` of what the walk reached; several nodes are named as the
   * `repr` of the tuple of their names, whose one-element form keeps a
   * trailing comma.
   */
  function FocusName(f: Focus): string
  {
    match f
    case Root(n, _) => n
    case One(p) => PartName(p)
    case Many(ps) => if |ps| == 1 then "(" + PartNames(ps)[0] + ",)" else "(" + Join(", ", PartNames(ps)) + ")"
  }

  /** `node.fields[name]` for one node. */
  function ChildNamed(p: Part, n: string): Result<Part>
  {
    match p.node
    case Composite(info, fs, _) =>
      (match FindField(fs, n)
       case None => Err(KeyError)
       case Some(c) => Ok(Part(FullName(p.parentName, info), c)))
    case FixedArray(_, _, _, _, _) => Err(TypeError)
    case VarArray(_, _, _) => Err(TypeError)
    case _ => Err(AttributeError)
  }

  function ChildrenNamed(ps: seq<Part>, n: string): (r: Result<seq<Part>>)
    ensures r.Ok? ==> |r.value| == |ps|
  {
    if ps == [] then Ok([])
    else match ChildNamed(ps[0], n)
      case Err(e) => Err(e)
      case Ok(c) =>
        match ChildrenNamed(ps[1..], n)
        case Err(e) => Err(e)
        case Ok(rest) => Ok([c] + rest)
  }

  /**
   * The position of `node.fields[i]` in a list of `n` elements, with Python's
   * negative positions counting from the end; none when out of range.
   */
  function PythonIndex(n: nat, i: int): (r: Option<nat>)
    ensures r.Some? <==> -(n as int) <= i < n
    ensures r.Some? ==> r.value < n && (r.value == i || r.value == n + i)
  {
    if 0 <= i < n then Some(i) else if -(n as int) <= i < 0 then Some(n + i) else None
  }

  /**
   * `node.fields[i]` for one node: a fixed array's element list takes the
   * position or raises IndexError; a variable array's empty tuple always
   * raises IndexError; a composite's dictionary has no such key.
   */
  function ChildAt(p: Part, i: int): Result<Part>
  {
    match p.node
    case FixedArray(_, _, es, _, _) =>
      (match PythonIndex(|es|, i)
       case None => Err(IndexError)
       case Some(k) => Ok(Part(p.parentName, es[k])))
    case VarArray(_, _, _) => Err(IndexError)
    case Composite(_, _, _) => Err(KeyError)
    case _ => Err(AttributeError)
  }

  function ChildrenAt(ps: seq<Part>, i: int): (r: Result<seq<Part>>)
    ensures r.Ok? ==> |r.value| == |ps|
  {
    if ps == [] then Ok([])
    else match ChildAt(ps[0], i)
      case Err(e) => Err(e)
      case Ok(c) =>
        match ChildrenAt(ps[1..], i)
        case Err(e) => Err(e)
        case Ok(rest) => Ok([c] + rest)
  }

  /** The parts for a list of elements under a common parent. */
  function Under(parentName: string, es: seq<Gen>): (r: seq<Part>)
    ensures |r| == |es|
    ensures forall i :: 0 <= i < |es| ==> r[i] == Part(parentName, es[i])
  {
    if es == [] then [] else [Part(parentName, es[0])] + Under(parentName, es[1..])
  }

  /** `node.all()` for one array node: a fixed array's elements, or a variable array's template. */
  function AllOf(p: Part): Result<seq<Part>>
  {
    match p.node
    case FixedArray(_, _, es, _, _) => Ok(Under(p.parentName, es))
    case VarArray(_, a, _) => Ok([Part(p.parentName, a)])
    case _ => Err(AttributeError)
  }

  /** The `fields` several arrays chain together: a fixed array's elements; a variable array has none. */
  function ChainedFields(ps: seq<Part>): Result<seq<Part>>
  {
    if ps == [] then Ok([])
    else if !(ps[0].node.FixedArray? || ps[0].node.VarArray?) then Err(AssertionError)
    else match ChainedFields(ps[1..])
      case Err(e) => Err(e)
      case Ok(rest) =>
        Ok((if ps[0].node.FixedArray? then Under(ps[0].parentName, ps[0].node.elems) else []) + rest)
  }

  /** Every node is an array. */
  predicate AllArrays(ps: seq<Part>)
  {
    forall i :: 0 <= i < |ps| ==> ps[i].node.FixedArray? || ps[i].node.VarArray?
  }

  /** The first error `some()` raises over several nodes, taken in order. */
  function FirstRepresentativeError(ps: seq<Part>): Option<Error>
    requires PartsWellFormed(ps)
  {
    if ps == [] then None
    else match Representative(ps[0].node, ps[0].parentName)
      case Err(e) => Some(e)
      case Ok(_) => FirstRepresentativeError(ps[1..])
  }

  /**
   * `some()` of several nodes: AssertionError unless every node is an array,
   * checked before any `some()` is called; then the first error `some()`
   * raises, if any.
   */
  function FirstSomeError(ps: seq<Part>): Option<Error>
    requires PartsWellFormed(ps)
  {
    if !AllArrays(ps) then Some(AssertionError) else FirstRepresentativeError(ps)
  }

  /**
   * "Any one element" of several nodes raises in every case: AssertionError
   * when one of them is not an array, whatever `some()` would raise on the
   * others; otherwise the UnsupportedOperationError or AttributeError of a
   * `some()`, or AttributeError from the tuple of representatives.
   */
  lemma {:induction false} ManySomeStep(ps: seq<Part>)
    requires PartsWellFormed(ps)
    ensures !AllArrays(ps) ==> Step(Many(ps), AnyOne) == Err(AssertionError)
    ensures AllArrays(ps) ==>
      Step(Many(ps), AnyOne) == Err(UnsupportedOperationError) || Step(Many(ps), AnyOne) == Err(AttributeError)
  {
    if AllArrays(ps) {
      FirstRepresentativeErrors(ps);
    }
  }

  lemma {:induction false} FirstRepresentativeErrors(ps: seq<Part>)
    requires PartsWellFormed(ps)
    ensures FirstRepresentativeError(ps).Some? ==>
      FirstRepresentativeError(ps).value == UnsupportedOperationError || FirstRepresentativeError(ps).value == AttributeError
  {
    if ps != [] {
      FirstRepresentativeErrors(ps[1..]);
    }
  }

  /** One step of the walk. */
  function Step(f: Focus, s: PathStep): (r: Result<Focus>)
    requires FocusWellFormed(f)
  {
    match f
    case Root(name, fs) =>
      (match s
       case Name(n) =>
         (match FindField(fs, n)
          case None => Err(KeyError)
          case Some(c) => Ok(One(Part(name, c))))
       case Index(_) => Err(KeyError)
       case _ => Err(AttributeError))
    case One(p) =>
      (match s
       case Name(n) =>
         (match ChildNamed(p, n)
          case Err(e) => Err(e)
          case Ok(c) => Ok(One(c)))
       case Index(i) =>
         (match ChildAt(p, i)
          case Err(e) => Err(e)
          case Ok(c) => Ok(One(c)))
       case All =>
         (match AllOf(p)
          case Err(e) => Err(e)
          case Ok(ps) => Ok(Many(ps)))
       case AnyOne =>
         match Representative(p.node, p.parentName)
         case Err(e) => Err(e)
         case Ok(h) => Ok(One(Part(p.parentName, h.representative.value))))
    case Many(ps) =>
      match s
      case Name(n) =>
        (match ChildrenNamed(ps, n)
         case Err(e) => Err(e)
         case Ok(cs) => Ok(Many(cs)))
      case Index(i) =>
        (match ChildrenAt(ps, i)
         case Err(e) => Err(e)
         case Ok(cs) => Ok(Many(cs)))
      case All =>
        (match ChainedFields(ps)
         case Err(e) => Err(e)
         case Ok(cs) => Ok(Many(cs)))
      case AnyOne =>
        // `some()` of several arrays is a plain tuple, which has no `generated`
        match FirstSomeError(ps)
        case Some(e) => Err(e)
        case None => Err(AttributeError)
  }

  lemma StepKeepsWellFormed(f: Focus, s: PathStep)
    requires FocusWellFormed(f) && Step(f, s).Ok?
    ensures FocusWellFormed(Step(f, s).value)
  {
    match f
    case Root(_, _) =>
    case One(p) =>
      if s.AnyOne? {
        RepresentativeIsStable(p.node, p.parentName);
      }
    case Many(ps) =>
      if s.Name? {
        ChildrenNamedWellFormed(ps, s.name);
      } else if s.Index? {
        ChildrenAtWellFormed(ps, s.position);
      } else if s.All? {
        ChainedFieldsWellFormed(ps);
      }
  }

  lemma {:induction false} ChildrenNamedWellFormed(ps: seq<Part>, n: string)
    requires PartsWellFormed(ps) && ChildrenNamed(ps, n).Ok?
    ensures PartsWellFormed(ChildrenNamed(ps, n).value)
  {
    if ps != [] {
      ChildrenNamedWellFormed(ps[1..], n);
      var r := ChildrenNamed(ps, n).value;
      forall i | 0 <= i < |r|
        ensures WellFormed(r[i].node)
      {
        if i > 0 { assert r[i] == ChildrenNamed(ps[1..], n).value[i - 1]; }
      }
    }
  }

  lemma {:induction false} ChildrenAtWellFormed(ps: seq<Part>, i: int)
    requires PartsWellFormed(ps) && ChildrenAt(ps, i).Ok?
    ensures PartsWellFormed(ChildrenAt(ps, i).value)
  {
    if ps != [] {
      ChildrenAtWellFormed(ps[1..], i);
      var r := ChildrenAt(ps, i).value;
      forall k | 0 <= k < |r|
        ensures WellFormed(r[k].node)
      {
        if k > 0 { assert r[k] == ChildrenAt(ps[1..], i).value[k - 1]; }
      }
    }
  }

  lemma {:induction false} ChainedFieldsWellFormed(ps: seq<Part>)
    requires PartsWellFormed(ps) && ChainedFields(ps).Ok?
    ensures PartsWellFormed(ChainedFields(ps).value)
  {
    if ps != [] {
      ChainedFieldsWellFormed(ps[1..]);
    }
  }

  /**
   * The walk: take each step in turn; a node (or group of nodes) reached that
   * is not rendered yet raises ResolutionError with its full name.
   */
  function Walk(f: Focus, steps: seq<PathStep>): Result<Focus>
    requires FocusWellFormed(f)
    decreases steps
  {
    if steps == [] then Ok(f)
    else match Step(f, steps[0])
      case Err(e) => Err(e)
      case Ok(next) =>
        StepKeepsWellFormed(f, steps[0]);
        if !Generated(next) then Err(ResolutionError(FocusName(next)))
        else Walk(next, steps[1..])
  }

  /** The selector's walk from the message's fields; it must not end on an array. */
  function Resolve(rootName: string, fields: seq<Gen>, steps: seq<PathStep>): Result<Focus>
    requires forall i :: 0 <= i < |fields| ==> WellFormed(fields[i])
  {
    match Walk(Root(rootName, fields), steps)
    case Err(e) => Err(e)
    case Ok(f) =>
      if f.One? && (f.part.node.FixedArray? || f.part.node.VarArray?) then Err(AssertionError) else Ok(f)
  }

  /** A walk that resolves ends on rendered nodes, and every step it takes succeeds. */
  lemma {:induction false} ResolvedIsRendered(f: Focus, steps: seq<PathStep>)
    requires FocusWellFormed(f) && Walk(f, steps).Ok? && |steps| > 0
    ensures Step(f, steps[0]).Ok? && Generated(Step(f, steps[0]).value)
    ensures Generated(Walk(f, steps).value)
    decreases steps
  {
    var next := Step(f, steps[0]).value;
    StepKeepsWellFormed(f, steps[0]);
    if |steps| > 1 {
      ResolvedIsRendered(next, steps[1..]);
    }
  }

  /**
   * One field-name step from a composite: KeyError when no field has that
   * name, ResolutionError with the field's full name when it is not rendered,
   * and the field itself otherwise.
   */
  lemma NameStep(p: Part, n: string)
    requires p.node.Composite? && WellFormed(p.node)
    ensures var r := Walk(One(p), [Name(n)]);
      var c := FindField(p.node.fields, n);
      (c.None? ==> r == Err(KeyError)) &&
      (c.Some? && !c.value.generated ==>
         r == Err(ResolutionError(FullName(FullName(p.parentName, p.node.info), c.value.info)))) &&
      (c.Some? && c.value.generated ==> r == Ok(One(Part(FullName(p.parentName, p.node.info), c.value))))
  {
  }

  /**
   * One positional step from an array: a fixed array's element at that
   * position (negative positions counting from the end), ResolutionError with
   * the element's full name when it is not rendered, IndexError out of range;
   * a variable array raises IndexError for every position.
   */
  lemma IndexStep(p: Part, i: int)
    requires (p.node.FixedArray? || p.node.VarArray?) && WellFormed(p.node)
    ensures var r := Walk(One(p), [Index(i)]);
      (p.node.VarArray? ==> r == Err(IndexError)) &&
      (p.node.FixedArray? ==>
         var es := p.node.elems;
         (!(-|es| <= i < |es|) ==> r == Err(IndexError)) &&
         (0 <= i < |es| && es[i].generated ==> r == Ok(One(Part(p.parentName, es[i])))) &&
         (0 <= i < |es| && !es[i].generated ==> r == Err(ResolutionError(FullName(p.parentName, es[i].info)))) &&
         (-|es| <= i < 0 && es[|es| + i].generated ==> r == Ok(One(Part(p.parentName, es[|es| + i])))) &&
         (-|es| <= i < 0 && !es[|es| + i].generated ==>
            r == Err(ResolutionError(FullName(p.parentName, es[|es| + i].info)))))
  {
  }

  /** "All elements" of a fixed array resolves exactly when every element is rendered. */
  lemma AllStep(p: Part)
    requires p.node.FixedArray? && WellFormed(p.node)
    ensures var r := Walk(One(p), [All]);
      (r.Ok? <==> forall i :: 0 <= i < |p.node.elems| ==> p.node.elems[i].generated) &&
      (r.Ok? ==> r.value == Many(Under(p.parentName, p.node.elems))) &&
      (r.Err? ==> r.error == ResolutionError(FocusName(Many(Under(p.parentName, p.node.elems)))))
  {
    var ps := Under(p.parentName, p.node.elems);
    assert Generated(Many(ps)) <==> forall i :: 0 <= i < |p.node.elems| ==> p.node.elems[i].generated;
  }

  /**
   * "Any one element" never resolves: the representative it reaches has not
   * been rendered (it is rendered only once assigned to a slot, after which a
   * fresh one is made), so whatever follows, the walk raises.
   */
  lemma AnyOneNeverResolves(f: Focus, rest: seq<PathStep>)
    requires FocusWellFormed(f)
    requires f.One? && f.part.node.FixedArray? ==>
      f.part.node.representative.None? || !f.part.node.representative.value.generated
    ensures Walk(f, [AnyOne] + rest).Err?
  {
    assert ([AnyOne] + rest)[0] == AnyOne;
    if f.One? && Step(f, AnyOne).Ok? {
      RepresentativeIsStable(f.part.node, f.part.parentName);
    }
  }

  /**
   * The errors a selector's walk can raise: ResolutionError while a node it
   * reaches is unrendered; KeyError, TypeError or AttributeError for a step
   * the node does not offer; IndexError for a position outside an array; UnsupportedOperationError from `some()`; and
   * AssertionError from a group of nodes that are not all arrays, or a walk
   * that ends on an array.
   */
  predicate WalkError(e: Error)
  {
    e.ResolutionError? || e == KeyError || e == IndexError || e == TypeError || e == AttributeError ||
    e == UnsupportedOperationError || e == AssertionError
  }

  lemma {:induction false} ChildrenNamedErrors(ps: seq<Part>, n: string)
    ensures ChildrenNamed(ps, n).Err? ==> WalkError(ChildrenNamed(ps, n).error)
  {
    if ps != [] {
      ChildrenNamedErrors(ps[1..], n);
    }
  }

  lemma {:induction false} ChildrenAtErrors(ps: seq<Part>, i: int)
    ensures ChildrenAt(ps, i).Err? ==> WalkError(ChildrenAt(ps, i).error)
  {
    if ps != [] {
      ChildrenAtErrors(ps[1..], i);
    }
  }

  lemma {:induction false} ChainedFieldsErrors(ps: seq<Part>)
    ensures ChainedFields(ps).Err? ==> ChainedFields(ps).error == AssertionError
  {
    if ps != [] {
      ChainedFieldsErrors(ps[1..]);
    }
  }

  /** Every step raises only walk errors. */
  lemma StepErrors(f: Focus, s: PathStep)
    requires FocusWellFormed(f)
    ensures Step(f, s).Err? ==> WalkError(Step(f, s).error)
  {
    if f.Many? {
      if s.Name? {
        ChildrenNamedErrors(f.parts, s.name);
      } else if s.Index? {
        ChildrenAtErrors(f.parts, s.position);
      } else if s.All? {
        ChainedFieldsErrors(f.parts);
      } else {
        ManySomeStep(f.parts);
      }
    }
  }

  lemma {:induction false} WalkErrors(f: Focus, steps: seq<PathStep>)
    requires FocusWellFormed(f)
    ensures Walk(f, steps).Err? ==> WalkError(Walk(f, steps).error)
    decreases steps
  {
    if steps != [] {
      StepErrors(f, steps[0]);
      if Step(f, steps[0]).Ok? {
        StepKeepsWellFormed(f, steps[0]);
        WalkErrors(Step(f, steps[0]).value, steps[1..]);
      }
    }
  }

  /** A selector's resolution raises only walk errors, and so never CyclicDependencyError. */
  lemma ResolveErrors(rootName: string, fields: seq<Gen>, steps: seq<PathStep>)
    requires forall i :: 0 <= i < |fields| ==> WellFormed(fields[i])
    ensures Resolve(rootName, fields, steps).Err? ==> WalkError(Resolve(rootName, fields, steps).error)
    ensures Resolve(rootName, fields, steps) != Err(CyclicDependencyError)
  {
    WalkErrors(Root(rootName, fields), steps);
  }
}
