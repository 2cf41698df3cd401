/**
 * A message strategy (`MsgStrategy`): a message type, the name of the
 * generator function it emits, and its top-level field nodes. `to_python`
 * emits the generator function: the message object is built from
 * "pkg.Msg()", then the field lines in the order the resolution driver
 * renders them, then the filter lines.
 *
 * What the selector walks of a node's references give, with the nodes
 * rendered so far, is the `walk` parameter: None when every reference
 * resolves, otherwise the error a walk raises (ResolutionError naming the
 * unrendered field it reached, or another walk error). The name of the
 * message object the top-level fields hang from is the `rootName` parameter.
 */
module Messages {
  import opened Base
  import opened RosTypes
  import opened Generators
  import opened Rendering
  import opened Selectors
  import opened Resolution

  /** The generator function emitted for a message, at indentation 0 with a tab of four spaces. */
  function Template(lib: string, name: string, varName: string, pkg: string, msg: string, definition: string): string
  {
    "@" + lib + ".composite\n" +
    "def " + name + "(draw):\n" +
    "    " + varName + " = " + pkg + "." + msg + "()\n" +
    definition + "\n" +
    "    return " + varName
  }

  /** The outcome of the selector walks of a node's references: none or a walk error. */
  type WalkOutcome = w: Option<Error> | w.None? || WalkError(w.value) witness None

  /**
   * One attempt of the driver: the error of a reference's walk, if any (the
   * driver waits on a ResolutionError and propagates any other), else the
   * node's render.
   */
  function Attempt(lib: string, walk: (Part, seq<Part>) -> WalkOutcome, p: Part, done: seq<Part>)
    : (r: Result<(string, Part)>)
    ensures r.Ok? ==> walk(p, done).None? && r.value.1.parentName == p.parentName
    ensures walk(p, done).Some? ==> r == Err(walk(p, done).value)
    ensures walk(p, done).None? ==> r.Err? == Render(p.node, p.parentName, lib).Err?
    ensures walk(p, done).None? && r.Err? ==> r.error == Render(p.node, p.parentName, lib).error
  {
    if walk(p, done).Some? then Err(walk(p, done).value)
    else match Render(p.node, p.parentName, lib)
      case Err(e) => Err(e)
      case Ok(out) => Ok((out.0, Part(p.parentName, out.1)))
  }

  /** The parent under which a node's children hang: a composite itself, an array's own parent. */
  function ChildParent(p: Part): string
  {
    if p.node.Composite? then FullName(p.parentName, p.node.info) else p.parentName
  }

  /** `children()` of a rendered node, each with the full name of its parent. */
  function PartChildren(p: Part): (r: seq<Part>)
    ensures |r| == |Children(p.node)|
  {
    Under(ChildParent(p), Children(p.node))
  }

  function PartSize(p: Part): nat
  {
    Size(p.node)
  }

  lemma {:induction false} SumOfUnder(parentName: string, es: seq<Gen>)
    ensures SumOf(PartSize, Under(parentName, es)) == SumSize(es)
  {
    if es != [] {
      assert Under(parentName, es)[1..] == Under(parentName, es[1..]);
      SumOfUnder(parentName, es[1..]);
    }
  }

  /**
   * The attempts of a message meet what the driver expects: a rendered node
   * enqueues children smaller than itself, and no attempt raises
   * CyclicDependencyError.
   */
  lemma AttemptsHold(lib: string, walk: (Part, seq<Part>) -> WalkOutcome)
    ensures Attempts(PartChildren, (p: Part, d: seq<Part>) => Attempt(lib, walk, p, d), PartSize)
  {
    var attempt := (p: Part, d: seq<Part>) => Attempt(lib, walk, p, d);
    forall x: Part, d: seq<Part>
      ensures attempt(x, d) != Err(CyclicDependencyError)
      ensures attempt(x, d).Ok? ==> SumOf(PartSize, PartChildren(attempt(x, d).value.1)) < PartSize(x)
    {
      RenderRaises(x.node, x.parentName, lib, true);
      if attempt(x, d).Ok? {
        var after := attempt(x, d).value.1;
        SumOfUnder(ChildParent(after), Children(after.node));
        if x.node.FixedArray? {
          PlacedElementsSmaller(x.node);
        }
      }
    }
  }

  /** The filter lines of the rendered nodes, in the order they were rendered. */
  function Filters(done: seq<Part>): (r: seq<string>)
    ensures |r| <= |done|
  {
    if done == [] then []
    else
      (match Assumptions(done[0].node, done[0].parentName)
       case None => []
       case Some(a) => [a]) + Filters(done[1..])
  }

  /**
   * What `_field_assumptions` appends with its loop mended: one entry per
   * rendered node, in render order, None for a node without a filter.
   */
  function AssumptionsOf(done: seq<Part>): (r: seq<Option<string>>)
    ensures |r| == |done|
  {
    if done == [] then [] else [Assumptions(done[0].node, done[0].parentName)] + AssumptionsOf(done[1..])
  }

  /** `"\n".join(body)`: TypeError when an entry is None, else the lines joined. */
  function JoinBody(body: seq<Option<string>>): Result<seq<string>>
  {
    if body == [] then Ok([])
    else match body[0]
      case None => Err(TypeError)
      case Some(line) =>
        match JoinBody(body[1..])
        case Err(e) => Err(e)
        case Ok(rest) => Ok([line] + rest)
  }

  /**
   * Appending every node's assumptions makes the join raise TypeError as soon
   * as one rendered node (a composite, an array, an unconstrained scalar) has
   * no filter; only when every node has one does it give the filter lines.
   */
  lemma {:induction false} JoinedAssumptions(done: seq<Part>)
    ensures JoinBody(AssumptionsOf(done)).Err? <==>
      exists i :: 0 <= i < |done| && Assumptions(done[i].node, done[i].parentName).None?
    ensures JoinBody(AssumptionsOf(done)).Err? ==> JoinBody(AssumptionsOf(done)).error == TypeError
    ensures JoinBody(AssumptionsOf(done)).Ok? ==> JoinBody(AssumptionsOf(done)).value == Filters(done)
  {
    if done != [] {
      JoinedAssumptions(done[1..]);
      assert AssumptionsOf(done)[1..] == AssumptionsOf(done[1..]);
      if exists i :: 0 <= i < |done[1..]| && Assumptions(done[1..][i].node, done[1..][i].parentName).None? {
        var i :| 0 <= i < |done[1..]| && Assumptions(done[1..][i].node, done[1..][i].parentName).None?;
        assert done[i + 1] == done[1..][i];
      }
      if exists i :: 0 <= i < |done| && Assumptions(done[i].node, done[i].parentName).None? {
        var i :| 0 <= i < |done| && Assumptions(done[i].node, done[i].parentName).None?;
        if i > 0 {
          assert done[1..][i - 1] == done[i];
        }
      }
    }
  }

  /** `name if name else ros_type_to_name(msg_type)`: an empty name stands for none given. */
  function StrategyName(msgType: string, name: string): string
  {
    if name != "" then name else RosTypeToName(msgType)
  }

  class MsgStrategy {
    const msgType: string
    const name: string
    var fields: seq<Gen>

    /** `MsgStrategy(msg_type, name)`: no fields yet. */
    constructor (msgType: string, name: string)
      ensures this.msgType == msgType && this.name == StrategyName(msgType, name) && fields == []
    {
      this.msgType := msgType;
      this.name := StrategyName(msgType, name);
      fields := [];
    }

    /**
     * `to_python`, with `_init_fields` referring to the module name it is
     * evidently meant to, and the filter lines of the rendered nodes after
     * their definitions. The type must be "pkg/Msg" (AssertionError without a
     * '/', ValueError with more than one). Otherwise the outcome is the
     * driver's over the top-level fields: on success, the generator function
     * whose body is the rendered lines followed by the filter lines, with
     * every queued node rendered exactly once; CyclicDependencyError when the
     * remaining nodes all wait on references; or the error a render raised.
     */
    method ToPython(varName: string, lib: string, rootName: string, walk: (Part, seq<Part>) -> WalkOutcome)
      returns (r: Result<string>, lines: seq<string>, done: seq<Part>, taken: seq<Part>)
      ensures '/' !in msgType ==> r == Err(AssertionError)
      ensures '/' in msgType && Count(msgType, '/') != 1 ==> r == Err(ValueError)
      ensures r.Ok? ==>
        (SplitPair(msgType, '/').Ok? &&
         r.value == Template(lib, name, varName, SplitPair(msgType, '/').value.0, SplitPair(msgType, '/').value.1,
                             Join("\n", lines + Filters(done))))
      ensures |lines| == |done| == |taken|
      ensures forall k :: 0 <= k < |done| ==> Attempt(lib, walk, taken[k], done[..k]) == Ok((lines[k], done[k]))
      ensures forall k :: 0 <= k < |taken| ==> Queued(taken[k], Under(rootName, fields), PartChildren, done, k)
      ensures r.Ok? ==> multiset(taken) == multiset(Under(rootName, fields)) + Spawned(PartChildren, done)
      ensures r.Ok? ==> forall i :: 0 <= i < |fields| ==> Part(rootName, fields[i]) in taken
      ensures r.Err? && Count(msgType, '/') == 1 ==> (r.error == CyclicDependencyError || RenderError(r.error, true) ||
         (WalkError(r.error) && !r.error.ResolutionError?))
    {
      lines, done, taken := [], [], [];
      if '/' !in msgType {
        CountZero(msgType, '/');
        return Err(AssertionError), lines, done, taken;
      }
      var parts := SplitPair(msgType, '/');
      if parts.Err? {
        return Err(ValueError), lines, done, taken;
      }
      var attempt := (p: Part, d: seq<Part>) => Attempt(lib, walk, p, d);
      AttemptsHold(lib, walk);
      var pending, err;
      lines, done, taken, pending, err := InitFields(Under(rootName, fields), PartChildren, attempt, PartSize);
      if err.Some? {
        if err != Some(CyclicDependencyError) && walk(pending[0], done).None? {
          RenderRaises(pending[0].node, pending[0].parentName, lib, true);
        }
        return Err(err.value), lines, done, taken;
      }
      r := Ok(Template(lib, name, varName, parts.value.0, parts.value.1, Join("\n", lines + Filters(done))));
      RootsTaken(Under(rootName, fields), taken, Spawned(PartChildren, done));
    }
  }

  /**
   * `to_python` as written: the type checks as above, then `_init_fields`
   * raises NameError on the first node it tries (the module name it passes is
   * not bound there), so only a message without fields renders, with an
   * empty body.
   */
  function ToPythonAsWritten(msgType: string, name: string, fields: seq<Gen>, varName: string, lib: string)
    : Result<string>
  {
    if '/' !in msgType then Err(AssertionError)
    else match SplitPair(msgType, '/')
      case Err(e) => Err(e)
      case Ok(parts) =>
        if fields != [] then Err(NameError)
        else Ok(Template(lib, name, varName, parts.0, parts.1, ""))
  }

  /**
   * `_field_assumptions` as written, given that `_init_fields` succeeded:
   * `_done` never grows in its loop, so the progress check after the first
   * round raises CyclicDependencyError whenever there is a field at all.
   */
  function FieldAssumptionsAsWritten(fields: seq<Gen>): Option<Error>
  {
    if fields == [] then None else Some(CyclicDependencyError)
  }

  /** As written, no message with a field renders, whatever its fields and readiness. */
  lemma AsWrittenNeedsNoFields(msgType: string, name: string, fields: seq<Gen>, varName: string, lib: string)
    requires Count(msgType, '/') == 1
    ensures ToPythonAsWritten(msgType, name, fields, varName, lib).Ok? <==> fields == []
    ensures fields != [] ==> ToPythonAsWritten(msgType, name, fields, varName, lib) == Err(NameError)
    ensures fields != [] ==> FieldAssumptionsAsWritten(fields) == Some(CyclicDependencyError)
  {
    CountZero(msgType, '/');
  }
}
