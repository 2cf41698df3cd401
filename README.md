# HPL strategy generator: a Dafny model

The module `haros/hpl/hypothesis_strategies.py` turns ROS message type
definitions into source code for Hypothesis strategies. Each strategy is a
`@composite` generator function that builds one message, field by field, and
then filters it with `assume(...)` lines. This project models the core of that
module and proves properties of the model:

- **The registry** (`StrategyMap`):
  - the table of message types;
  - the default strategies: one per built-in type, and one default tree per
    message type;
  - groups of custom message strategies, created one type at a time
    (`make_custom`) or for a whole tree of types (`make_custom_tree`) and
    back-filled from the defaults (`complete_custom_strategies`).
- **Field-generator nodes**: simple, numeric, composite, fixed-length array
  and variable-length array. For each: its constraint state, `is_default`,
  `children`, the constraint mutators (`eq`, `neq`, `lt`..`gte`, `in_set`,
  `not_in`, with their errors and array broadcasting), `copy`, the array
  constructors and the array representative (`some`, `_assign_some`).
- **Field conditions**: merging two conditions on one field, and their filter
  lines.
- **Rendering**: a node's `to_python` line, its `assumptions` filter line, and
  `tree_to_python` of a whole subtree.
- **The resolution driver** of `MsgStrategy._init_fields`. This loop renders
  queued nodes round by round and re-queues those whose references are not
  yet rendered. It raises `CyclicDependencyError` when a round renders
  nothing. The model proves that the loop terminates, renders every queued
  node exactly once and loses none.
- **The path walk of a `Selector`** (a reference from one field to another).
- **Value checks and names**: the built-in type checks (`accepts` of the
  bool, int, float and string strategies), `ros_type_to_name`,
  `value_to_python`, and `MsgStrategy.to_python` with its message template.
- **The module's own demonstration table**, and what `make_custom` and
  `make_custom_tree` do with it.

The model's form follows the source:

- Nodes, conditions and values are datatypes. An operation the source performs
  in place on a node returns the node as it is afterwards, together with the
  error it raised, so a change made before an error is kept.
- The two objects whose fields the Python code updates through shared
  references, `StrategyMap` and `MsgStrategy`, are classes.
- The loops of `make_custom_tree`, `complete_custom_strategies`,
  `_init_fields`, `_assign_some` and array broadcasting are methods with loop
  invariants. Each is proved against a specification function.
- Python dictionaries are sequences (the fields of a message strategy, the
  fields of a table entry) or maps (the registry's tables). The source is
  Python 2, whose dictionaries iterate in an arbitrary order; a sequence fixes
  one such order. The lemmas about the resolution driver and the tree walk
  hold for every sequence, and so for whatever order Python picks; only the
  order of the emitted lines follows the chosen one.
- Exceptions are the `Error` values of `Base`, carried in `Result` and
  `Option`.

Two things become parameters:
- what the selector walks of a node's references give, with the nodes
  rendered so far (`walk`): none when every reference resolves; otherwise the
  walk's error. A ResolutionError naming an unrendered field makes the node
  wait. Every other walk error (KeyError, IndexError, TypeError,
  AttributeError, UnsupportedOperationError, AssertionError) escapes `_init_fields`, which
  catches only ResolutionError;
- the name of the message object (`rootName`).

## Model

| member | source | states |
|---|---|---|
| Base.ReplaceChar | haros/hpl/hypothesis_strategies.py:94 | `str.replace` of one character keeps the length |
| Base.ReplaceCharAt | haros/hpl/hypothesis_strategies.py:75 | each position holds the replacement if it held the old character, and is unchanged otherwise |
| Base.ReplaceCharAppend | haros/hpl/hypothesis_strategies.py:1373-1374 | replacing distributes over concatenation |
| Base.ReplaceCharAbsent | haros/hpl/hypothesis_strategies.py:1373-1374 | a string without the character is unchanged |
| Base.ReplaceCharRemoves | haros/hpl/hypothesis_strategies.py:1373-1374 | after replacing, the old character no longer occurs |
| Base.ReplaceSeparator | haros/hpl/hypothesis_strategies.py:1373-1374 | "pkg/Msg" becomes "pkg_Msg" when neither part holds a '/' |
| Base.Find | haros/hpl/hypothesis_strategies.py:248 | the index found is the first occurrence of the character; none means it does not occur |
| Base.CountZero | haros/hpl/hypothesis_strategies.py:247 | the count is zero exactly when the character is absent (the `"/" in msg_type` assertion) |
| Base.CountAppend | haros/hpl/hypothesis_strategies.py:248 | counts add over concatenation |
| Base.SplitPair | haros/hpl/hypothesis_strategies.py:248 | `pkg, msg = s.split("/")` succeeds exactly when there is one separator; the string is then pkg + "/" + msg with no separator in either part; otherwise ValueError |
| Base.NatToString | haros/hpl/hypothesis_strategies.py:1385 | `repr` of a natural number is a non-empty string of decimal digits |
| Base.ParseNatToString | haros/hpl/hypothesis_strategies.py:1385 | reading back the decimal text of a natural number gives the number |
| Base.IntToStringRoundTrip | haros/hpl/hypothesis_strategies.py:1385 | reading back `repr` of any integer, negative ones included, gives the integer |
| Base.ItemsToPython | haros/hpl/hypothesis_strategies.py:1381-1382 | one rendered item per tuple element |
| Base.ItemsToPythonAt | haros/hpl/hypothesis_strategies.py:1381-1382 | item k is `value_to_python` of element k |
| Base.JoinTwo | haros/hpl/hypothesis_strategies.py:1382 | joining two strings puts the separator between them |
| Base.TupleRendering | haros/hpl/hypothesis_strategies.py:1380-1385 | a pair renders as "(a, b)" and a one-tuple as "(a)", each element by `value_to_python` |
| RosTypes.AcceptsAsWrittenRejectsOwnTypes | haros/hpl/hypothesis_strategies.py:315-324 | as written, `accepts` raises ValueError for every type of its own class |
| RosTypes.AcceptsAsWrittenNeverAcceptsInts | haros/hpl/hypothesis_strategies.py:362-370 | as written, the int check never accepts a value |
| RosTypes.IntAcceptsInRange | haros/hpl/hypothesis_strategies.py:362-370 | corrected, an integer value is accepted exactly when it lies within the type's bounds |
| RosTypes.BoolAcceptsZeroOne | haros/hpl/hypothesis_strategies.py:315-324 | corrected, a bool accepts exactly the integers 0 and 1 (True and False), and raises TypeError for a value that is not an integer |
| RosTypes.IntRangesWellFormed | haros/hpl/hypothesis_strategies.py:334-345 | every integer type's range holds 0; each unsigned range spans 2^8, 2^16, 2^32 or 2^64 values; each signed range is symmetric in two's complement |
| RosTypes.TypeCheck | haros/hpl/hypothesis_strategies.py:779-791 | `_type_check_value` with the corrected `accepts`: no check for a non-built-in type; an integer value of an integer type is checked against its range; a selector value passes exactly when its type is the field's |
| RosTypes.TypeCheckAsWrittenRejects | haros/hpl/hypothesis_strategies.py:779-791 | with `accepts` as written, every value on a field of a built-in scalar type raises ValueError, and other types are not checked |
| RosTypes.BuiltinNamesAgree | haros/hpl/hypothesis_strategies.py:1372-1378 | `ros_type_to_name` of a built-in type is the name of its built-in strategy |
| RosTypes.HeaderNameAgrees | haros/hpl/hypothesis_strategies.py:1372-1378 | "std_msgs/Header" is named "std_msgs_Header" |
| RosTypes.NoSlashInScalarNames | haros/hpl/hypothesis_strategies.py:1372-1378 | a built-in scalar type has no '/' and is named "ros_" + type |
| RosTypes.SlashedNotBuiltin | haros/hpl/hypothesis_strategies.py:98 | a type with a '/' other than the header is not built in, so `make_custom_tree` follows it |
| RosTypes.MessageNameHasNoSlash | haros/hpl/hypothesis_strategies.py:1373-1374 | a message type's name has no '/' and the same length as the type |
| Conditions.MergeOnlyNotEquals | haros/hpl/hypothesis_strategies.py:1133-1134 | `merge` succeeds exactly for two not-equals conditions, giving not-in of both values; otherwise NotImplementedError |
| Conditions.MergeMeansBoth | haros/hpl/hypothesis_strategies.py:1152-1156 | a merged condition holds of a value exactly when both originals do |
| Conditions.MergedIsFinal | haros/hpl/hypothesis_strategies.py:1213-1221 | a merged (not-in) condition cannot be merged again |
| Conditions.NotEqualTexts | haros/hpl/hypothesis_strategies.py:1217-1221 | one comparison per excluded value |
| Conditions.MergedFilterIsConjunction | haros/hpl/hypothesis_strategies.py:1149-1221 | the filter of two merged `neq` is the conjunction of the two `!=` comparisons |
| Generators.Children | haros/hpl/hypothesis_strategies.py:883-884 | `children()` are structurally smaller than the node |
| Generators.FirstTypeError | haros/hpl/hypothesis_strategies.py:723-738 | no error exactly when every value passes the type check; otherwise the error one of the values raises |
| Generators.ApplyEach | haros/hpl/hypothesis_strategies.py:986-1016 | broadcasting yields one node per element |
| Generators.Accepted | haros/hpl/hypothesis_strategies.py:986-1016 | the elements before the first error accept the constraint, and the element at that point raises |
| Generators.ApplyEachRaises | haros/hpl/hypothesis_strategies.py:986-1016 | a broadcast raises the first element's error, or nothing |
| Generators.ApplyEachStopsAtFirstError | haros/hpl/hypothesis_strategies.py:986-1016 | elements up to the failing one are constrained; the ones after it are untouched |
| Generators.ConstrainedIsNotDefault | haros/hpl/hypothesis_strategies.py:692-709 | a mutator that succeeds leaves the node non-default |
| Generators.EmptyArrayTakesAnything | haros/hpl/hypothesis_strategies.py:986-1016 | a constraint on a zero-length fixed array does nothing and raises nothing |
| Generators.OrderingUnsupported | haros/hpl/hypothesis_strategies.py:711-721 | `lt`..`gte` on a non-numeric scalar raise UnsupportedOperationError and change nothing |
| Generators.CompositeRefusesAll | haros/hpl/hypothesis_strategies.py:886-908 | every mutator on a composite raises UnsupportedOperationError |
| Generators.ChoiceSetsCondition | haros/hpl/hypothesis_strategies.py:793-797 | a successful `eq`/`neq`/`in_set`/`not_in` leaves a condition on the node |
| Generators.BoundSetsCondition | haros/hpl/hypothesis_strategies.py:812-830 | a successful bound leaves a condition on the node |
| Generators.MutatorsAsWrittenRaise | haros/hpl/hypothesis_strategies.py:700-738 | with `accepts` as written, every mutator on a scalar of a built-in type raises and changes nothing: ValueError for `eq`, `neq`, the orderings and a non-empty tuple, TypeError for a non-tuple |
| Generators.NeqTwiceMerges | haros/hpl/hypothesis_strategies.py:707-709 | two `neq` on a scalar merge into not-in of both values |
| Generators.EqAfterNeqKeepsConstant | haros/hpl/hypothesis_strategies.py:700-705 | `eq` after `neq` sets the constant and then raises NotImplementedError from the merge, keeping the constant |
| Generators.SecondChoiceInconsistent | haros/hpl/hypothesis_strategies.py:700-705 | `eq`/`in_set` on a node that has a constant or a pool raise InconsistencyError |
| Generators.SetConstraintNeedsTuple | haros/hpl/hypothesis_strategies.py:723-738 | `in_set`/`not_in` with a value that is not a tuple raise TypeError |
| Generators.IllTypedValueRejected | haros/hpl/hypothesis_strategies.py:779-791 | a value the type check refuses makes the mutator raise that error and change nothing |
| Generators.BoundOverwritten | haros/hpl/hypothesis_strategies.py:812-830 | a numeric bound replaces the previous bound on the same side |
| Generators.LtThenLtWidens | haros/hpl/hypothesis_strategies.py:812-816 | `lt(5)` then `lt(10)` leaves the upper bound at 10 and a merge error |
| Generators.CopyEach | haros/hpl/hypothesis_strategies.py:935-940 | a composite's copy has one field per field |
| Generators.CopyFailsOnArrays | haros/hpl/hypothesis_strategies.py:935-940 | `copy` fails with AttributeError exactly when the subtree holds an array |
| Generators.CopyEachFailsOnArrays | haros/hpl/hypothesis_strategies.py:935-940 | copying fields fails exactly when one of them holds an array |
| Generators.CopyProperties | haros/hpl/hypothesis_strategies.py:770-777 | a copy takes the new name and index and the same type; deep copies keep the constraints and shallow ones are default; no copy is rendered |
| Generators.CopyEachProperties | haros/hpl/hypothesis_strategies.py:853-862 | the same for each field of a copied composite |
| Generators.Copies | haros/hpl/hypothesis_strategies.py:935-965 | the elements of a new fixed array are the copies of the template at indices 0..n-1; it fails exactly when n > 0 and the template holds an array, with AttributeError |
| Generators.FixedArrayHoldsCopies | haros/hpl/hypothesis_strategies.py:935-965 | a fixed array is built exactly when the template is a field and either the length is 0 or the template holds no array; TypeError for a template that is not a field, AttributeError for a positive length over a template holding an array; once built it has the given length, default unrendered elements, and no representative |
| Generators.VarArrayHoldsTemplate | haros/hpl/hypothesis_strategies.py:1057-1063 | a variable array holds the template copied with the loop index |
| Generators.Representative | haros/hpl/hypothesis_strategies.py:970-978 | `some()` raises only UnsupportedOperationError (a zero-length or variable array) or AttributeError (a node that is not an array, or a copy of an element holding an array) |
| Generators.RepresentativeIsStable | haros/hpl/hypothesis_strategies.py:970-978 | `some()` raises for a zero-length array; it yields a default unrendered representative with a random index; calling it again yields the same one |
| Generators.FirstDefault | haros/hpl/hypothesis_strategies.py:1039-1042 | the lowest index of a default element, or none when no element is default |
| Generators.AssignSome | haros/hpl/hypothesis_strategies.py:1039-1046 | the result is a fixed array of the same length with no pending representative |
| Generators.AssignSomeLowestDefault | haros/hpl/hypothesis_strategies.py:1039-1046 | the representative replaces the lowest default slot and takes its index; the other slots are unchanged; InconsistencyError exactly when no slot is default |
| Generators.AssignSomeAsWrittenNeedsRepresentative | haros/hpl/hypothesis_strategies.py:1039-1046 | as written, `_assign_some` fails whenever no representative is pending (AttributeError when a slot is free) |
| Generators.AssignSomeAgrees | haros/hpl/hypothesis_strategies.py:1039-1046 | with a pending representative, the as-written and corrected versions agree |
| Generators.AssignSomeSkipsPinned | haros/hpl/hypothesis_strategies.py:1039-1046 | example: the representative goes past constrained slots to the first free one |
| Generators.AssignSomeInPlace | haros/hpl/hypothesis_strategies.py:1039-1046 | on the element array: raises InconsistencyError and changes nothing exactly when no slot is default; otherwise the array is the placement at the first default slot |
| Generators.FirstDefaultIsFirst | haros/hpl/hypothesis_strategies.py:1040-1041 | the loop's index is `FirstDefault` |
| Generators.BroadcastInPlace | haros/hpl/hypothesis_strategies.py:986-1016 | the loop over the element array leaves exactly the broadcast's elements and raises its error |
| Generators.BroadcastResult | haros/hpl/hypothesis_strategies.py:986-1016 | the broadcast's elements and error, described element by element |
| Generators.Element | haros/hpl/hypothesis_strategies.py:800-875 | the node of one value of a type (numeric, other built-in scalar, or composite) is a default, unrendered field with no array inside, under the given name and type |
| Generators.MakeDefault | haros/hpl/hypothesis_strategies.py:121-127 | the assumed stand-in for the unbound `FieldStrategy.make_default` of line 126 gives the default node of a field: default, unrendered, under the field's name and type; a single field for a single token, a fixed array of the token's length, or a variable array |
| Rendering.Size | haros/hpl/hypothesis_strategies.py:883-884 | every node has positive size |
| Rendering.SumSize | haros/hpl/hypothesis_strategies.py:983-984 | the sum bounds every member |
| Rendering.SumSizeUpdate | haros/hpl/hypothesis_strategies.py:1043-1045 | replacing one element changes the sum by the difference |
| Rendering.PlacedElementsSmaller | haros/hpl/hypothesis_strategies.py:1019-1025 | after placement, the elements are smaller than the array, so the driver's queue shrinks |
| Rendering.MarkRendered | haros/hpl/hypothesis_strategies.py:751 | the node is flagged rendered, with the same name, type and index |
| Rendering.TreeRenderEach | haros/hpl/hypothesis_strategies.py:926-933 | one text and one node per child |
| Rendering.RenderAtMostOnce | haros/hpl/hypothesis_strategies.py:740-753 | a rendered node refuses both renders with AssertionError; a successful render leaves the node rendered under the same name |
| Rendering.RenderByVariant | haros/hpl/hypothesis_strategies.py:740-1025 | in either version, a scalar renders its assignment line; a composite, its line; a fixed array, its placement and list draw |
| Rendering.ConstantLine | haros/hpl/hypothesis_strategies.py:740-753 | a scalar with a constant is assigned that constant |
| Rendering.PoolLine | haros/hpl/hypothesis_strategies.py:740-753 | a scalar with a pool is drawn with `sampled_from` over the pool |
| Rendering.BoundArgsText | haros/hpl/hypothesis_strategies.py:832-851 | the numeric default draw passes exactly the bounds that are set, the lower one first |
| Rendering.CompositeLine | haros/hpl/hypothesis_strategies.py:910-921 | a default composite draws from its type's strategy; a constrained one builds "pkg.Msg()", with ValueError unless the type has one separator |
| Rendering.FixedArrayLine | haros/hpl/hypothesis_strategies.py:1019-1025 | corrected, a fixed array draws a list of exactly its length after placing the representative, and fails exactly when the placing does (InconsistencyError); as written it fails whenever no representative is pending (AttributeError when a slot is free) and otherwise agrees |
| Rendering.ScalarTreeHasFilter | haros/hpl/hypothesis_strategies.py:761-768 | a scalar's subtree is its line, then its filter line when it has a condition |
| Rendering.TreeRenderRendersAll | haros/hpl/hypothesis_strategies.py:926-933 | a successful subtree render leaves every node of the subtree rendered |
| Rendering.TreeRenderEachRendersAll | haros/hpl/hypothesis_strategies.py:1030-1037 | the same for every child |
| Rendering.RenderRaises | haros/hpl/hypothesis_strategies.py:740-1111 | a render raises only AssertionError, ValueError or InconsistencyError, and as written also AttributeError |
| Rendering.TreeRenderRaises | haros/hpl/hypothesis_strategies.py:761-1119 | the same for subtree renders |
| Rendering.TreeRenderEachRaises | haros/hpl/hypothesis_strategies.py:926-933 | the same for a list of children |
| Rendering.VarArrayTreeAsWritten | haros/hpl/hypothesis_strategies.py:1116-1119 | as written, `tree_to_python` of a variable array always raises AssertionError; corrected, it is its `to_python` |
| Rendering.NestedVarArrayExample | haros/hpl/hypothesis_strategies.py:1102-1119 | example: a variable array of messages that hold a variable array cannot render as written, and renders when corrected |
| Selectors.FindField | haros/hpl/hypothesis_strategies.py:547 | the field found has the name; none means no field has it |
| Selectors.ChildrenNamed | haros/hpl/hypothesis_strategies.py:583-585 | one child per node |
| Selectors.Under | haros/hpl/hypothesis_strategies.py:263 | each node is placed under the parent's name, in order |
| Selectors.StepKeepsWellFormed | haros/hpl/hypothesis_strategies.py:539-547 | each step of the walk reaches well-formed nodes |
| Selectors.ResolvedIsRendered | haros/hpl/hypothesis_strategies.py:548-549 | a walk that resolves ends on rendered nodes, and its first step succeeds onto rendered nodes |
| Selectors.NameStep | haros/hpl/hypothesis_strategies.py:546-549 | a field-name step: KeyError for a missing name; ResolutionError with the field's full name when it is not rendered; the field otherwise |
| Selectors.AllStep | haros/hpl/hypothesis_strategies.py:541-543 | "all elements" resolves exactly when every element is rendered, to those elements |
| Selectors.ManySomeStep | haros/hpl/hypothesis_strategies.py:579-581 | "some element" of several nodes raises AssertionError unless every node is an array; when all are, the first `some()` that fails raises UnsupportedOperationError or AttributeError |
| Selectors.PythonIndex | haros/hpl/hypothesis_strategies.py:547 | a position indexes a list of n elements exactly when -n <= i < n; a negative one counts from the end |
| Selectors.ChildrenAt | haros/hpl/hypothesis_strategies.py:583-585 | a positional step over several nodes yields one element per node |
| Selectors.IndexStep | haros/hpl/hypothesis_strategies.py:547-549 | a positional step: a fixed array's element at that position (negative counting from the end), ResolutionError with its full name when unrendered, IndexError out of range; IndexError on every position of a variable array (1062) |
| Selectors.StepErrors | haros/hpl/hypothesis_strategies.py:539-585 | a step of the walk raises only ResolutionError, KeyError, IndexError, TypeError, AttributeError, UnsupportedOperationError or AssertionError |
| Selectors.WalkErrors | haros/hpl/hypothesis_strategies.py:539-549 | a walk raises only those errors |
| Selectors.ResolveErrors | haros/hpl/hypothesis_strategies.py:536-550 | a selector's resolution raises only those errors, never CyclicDependencyError |
| Selectors.AnyOneNeverResolves | haros/hpl/hypothesis_strategies.py:544-545 | "some element" never resolves, since the representative is never rendered |
| Resolution.SumOfAppend | haros/hpl/hypothesis_strategies.py:264-274 | sizes add over concatenation of queues |
| Resolution.SuccessShrinks | haros/hpl/hypothesis_strategies.py:268-272 | rendering a node and queueing its smaller children shrinks the queue's size |
| Resolution.RequeueKeeps | haros/hpl/hypothesis_strategies.py:273-274 | re-queueing a waiting node keeps the size |
| Resolution.RootsTaken | haros/hpl/hypothesis_strategies.py:263 | every top-level field is among the nodes taken |
| Resolution.TakeKeeps | haros/hpl/hypothesis_strategies.py:268-272 | taking a node and queueing its children keeps the count of nodes |
| Resolution.WaitKeeps | haros/hpl/hypothesis_strategies.py:273-274 | re-queueing keeps the count of nodes |
| Resolution.SuccessStep | haros/hpl/hypothesis_strategies.py:268-272 | a rendered node keeps the driver's record sound and its children queued |
| Resolution.AfterSuccess | haros/hpl/hypothesis_strategies.py:268-272 | the round's invariant survives a render |
| Resolution.AfterWait | haros/hpl/hypothesis_strategies.py:273-274 | the round's invariant survives a ResolutionError |
| Resolution.AfterError | haros/hpl/hypothesis_strategies.py:267-274 | another error stops the round with the failing node first and nothing lost |
| Resolution.RoundEnd | haros/hpl/hypothesis_strategies.py:275 | at the end of a round, the counts balance and the size bound holds |
| Resolution.Round | haros/hpl/hypothesis_strategies.py:266-274 | one round: each render is the attempt on the nodes rendered before it; nothing is lost; the queue shrinks when a node renders; with no render every node waits; another error stops it |
| Resolution.InitFields | haros/hpl/hypothesis_strategies.py:261-277 | `_init_fields`: each line is the render of the node taken; every node taken was queued; nothing is lost; it finishes with an empty queue, or CyclicDependencyError when every remaining node waits, or the first other error |
| Messages.Attempt | haros/hpl/hypothesis_strategies.py:266-274 | one attempt renders a node only when every walk of its references resolves, under the same parent, and then fails exactly when the render does, with the render's error; otherwise it raises the walk's error (ResolutionError to wait, any other walk error to escape) |
| Messages.PartChildren | haros/hpl/hypothesis_strategies.py:272 | `children()` with their parent's name, one per child |
| Messages.SumOfUnder | haros/hpl/hypothesis_strategies.py:272 | placing children under a name keeps their size |
| Messages.AttemptsHold | haros/hpl/hypothesis_strategies.py:266-277 | a rendered node queues children smaller than itself, and no attempt raises CyclicDependencyError |
| Messages.Filters | haros/hpl/hypothesis_strategies.py:279-294 | at most one filter line per rendered node |
| Messages.JoinedAssumptions | haros/hpl/hypothesis_strategies.py:279-294 | appending every rendered node's assumptions, None included, makes the join raise TypeError exactly when some rendered node has no filter; otherwise it gives the filter lines |
| Messages.MsgStrategy.constructor | haros/hpl/hypothesis_strategies.py:205-209 | a new strategy has the type, the given name or `ros_type_to_name`, and no fields |
| Messages.MsgStrategy.ToPython | haros/hpl/hypothesis_strategies.py:245-259 | AssertionError without '/', ValueError with more than one; otherwise the driver's outcome: on success the template with the rendered lines and then the filter lines, every top-level field taken, nothing lost; else CyclicDependencyError, a render error, or a walk error other than ResolutionError |
| Messages.AsWrittenNeedsNoFields | haros/hpl/hypothesis_strategies.py:261-294 | as written, only a message without fields renders: with a field, `_init_fields` raises NameError and `_field_assumptions` would raise CyclicDependencyError |
| Registry.DefaultFieldsAt | haros/hpl/hypothesis_strategies.py:125-127 | each declared field gets its default node under its own name, in the order of the table's field sequence |
| Registry.NonBuiltinTypesAt | haros/hpl/hypothesis_strategies.py:97-99 | exactly the field types that are not built in are queued |
| Registry.TreeWalkFirst | haros/hpl/hypothesis_strategies.py:87-99 | a new type at the head is created and its non-built-in field types are queued after the rest |
| Registry.TreeWalkSkip | haros/hpl/hypothesis_strategies.py:87-93 | the corrected walk passes over a type it already created |
| Registry.TreeWalkStop | haros/hpl/hypothesis_strategies.py:88-93 | a type missing from the table, or present in the group, stops the walk with ValueError |
| Registry.TreeWalkCreates | haros/hpl/hypothesis_strategies.py:85-99 | the walk only adds types, and only types of the table the group did not hold |
| Registry.TreeWalkHead | haros/hpl/hypothesis_strategies.py:94-100 | the type the walk starts from is created whatever stops the walk |
| Registry.TreeWalkCloses | haros/hpl/hypothesis_strategies.py:85-99 | a walk that does not raise creates every queued type and every type a created type refers to |
| Registry.TreeWalkWithin | haros/hpl/hypothesis_strategies.py:85-99 | the walk creates nothing outside a set closed under field references that holds what is created and queued |
| Registry.TreeWalkReachable | haros/hpl/hypothesis_strategies.py:80-100 | in both versions, `make_custom_tree` creates only types reachable from the one asked for, and, when it does not raise, all of them: the least set closed under field references that holds that type |
| Registry.CorrectedWalkSucceeds | haros/hpl/hypothesis_strategies.py:80-100 | over a table that declares every type it refers to, and from an empty group, the corrected walk never raises |
| Registry.Names | haros/hpl/hypothesis_strategies.py:106 | the set of names is exactly the fields' names |
| Registry.NamesAppend | haros/hpl/hypothesis_strategies.py:107 | adding a field adds its name |
| Registry.BackfillNames | haros/hpl/hypothesis_strategies.py:102-108 | after back-filling, the names are the strategy's own and the default's |
| Registry.BackfillKeepsOwn | haros/hpl/hypothesis_strategies.py:106-107 | the strategy's own fields stay first and unchanged; every added field is a default one |
| Registry.BackfillAddsMissing | haros/hpl/hypothesis_strategies.py:106-107 | every default field whose name is missing is added |
| Registry.BackfillPresent | haros/hpl/hypothesis_strategies.py:106 | with every name present, back-filling changes nothing |
| Registry.BackfillIdempotent | haros/hpl/hypothesis_strategies.py:102-108 | back-filling twice is back-filling once |
| Registry.DefaultsUpToStart | haros/hpl/hypothesis_strategies.py:110-119 | `_make_builtins` files one built-in strategy per built-in type |
| Registry.DefaultsUpToStep | haros/hpl/hypothesis_strategies.py:122-124 | each iteration of `_make_defaults` files one type's default tree |
| Registry.DefaultsAt | haros/hpl/hypothesis_strategies.py:110-127 | every built-in and every message type has a default: the message's default tree when there is one (replacing a built-in entry), the built-in strategy otherwise |
| Registry.DefaultAt | haros/hpl/hypothesis_strategies.py:121-127 | the default of a message type is its default tree |
| Registry.ObjectsWithStrategy | haros/hpl/hypothesis_strategies.py:77 | filing a new strategy adds exactly it to the set of custom strategies |
| Registry.ObjectsWithStrategies | haros/hpl/hypothesis_strategies.py:96 | filing new strategies adds exactly them |
| Registry.NamedAdd | haros/hpl/hypothesis_strategies.py:94-96 | each strategy of a group is named after the group and its type |
| Registry.NewStrategy | haros/hpl/hypothesis_strategies.py:94-96 | a new strategy is fresh, of its type, with the group name and no fields |
| Registry.Create | haros/hpl/hypothesis_strategies.py:94-96 | one step of the walk files one new strategy |
| Registry.GrowGroup | haros/hpl/hypothesis_strategies.py:85-99 | the loop of `make_custom_tree` creates exactly the strategies of `TreeWalk`, with its error, each fresh, named and empty |
| Registry.StrategyMap.constructor | haros/hpl/hypothesis_strategies.py:47-59 | the defaults are those of the table, and there are no custom strategies |
| Registry.StrategyMap.GetCustom | haros/hpl/hypothesis_strategies.py:61-62 | the strategy exactly when the group and type are filed; KeyError otherwise |
| Registry.StrategyMap.OpenGroup | haros/hpl/hypothesis_strategies.py:65-68 | a missing or empty group is replaced by a new empty one |
| Registry.StrategyMap.AddStrategy | haros/hpl/hypothesis_strategies.py:75-78 | one new strategy, named after the group and type, filed under the type |
| Registry.StrategyMap.MakeCustom | haros/hpl/hypothesis_strategies.py:64-78 | the group exists afterwards; ValueError for a type not in the table or already in the group; otherwise exactly one new named strategy |
| Registry.StrategyMap.MakeCustomTreeAsWritten | haros/hpl/hypothesis_strategies.py:80-100 | as written: the group gains exactly the strategies of the walk, including those created before an error; the result is the walk's error or the type's strategy |
| Registry.StrategyMap.MakeCustomTree | haros/hpl/hypothesis_strategies.py:80-100 | the same, with types reached again passed over |
| Registry.StrategyMap.SetGroup | haros/hpl/hypothesis_strategies.py:96 | the group becomes the grown dictionary; the new strategies join the custom ones |
| Registry.StrategyMap.CompleteCustomStrategies | haros/hpl/hypothesis_strategies.py:102-108 | every custom strategy's fields become its old fields back-filled from its type's default fields |
| Registry.StrategyMap.TreesMadeOf | haros/hpl/hypothesis_strategies.py:121-127 | every message type of the table has a default tree |
| Registry.StrategyMap.CompleteGroup | haros/hpl/hypothesis_strategies.py:103-108 | one group: its strategies are back-filled once, and no other strategy changes |
| Registry.Fill | haros/hpl/hypothesis_strategies.py:105-108 | the inner loop leaves the fields back-filled from the defaults |
| Registry.NamedStrategyHasName | haros/hpl/hypothesis_strategies.py:207 | a custom strategy keeps its group-and-type name |
| Scenario.NestedRefers | haros/hpl/hypothesis_strategies.py:1422-1426 | "pkg/Nested" refers only to "pkg/Nested2" beyond built-in types |
| Scenario.Nested2Refers | haros/hpl/hypothesis_strategies.py:1427-1430 | "pkg/Nested2" refers only to built-in types |
| Scenario.TwistRefers | haros/hpl/hypothesis_strategies.py:1394-1397 | both fields of a twist are vectors |
| Scenario.Vector3Refers | haros/hpl/hypothesis_strategies.py:1398-1402 | a vector refers only to built-in types |
| Scenario.NestedTree | haros/hpl/hypothesis_strategies.py:1393-1431 | the tree walk from "pkg/Nested" creates it and "pkg/Nested2" and succeeds, in both versions |
| Scenario.TwistTreeAsWritten | haros/hpl/hypothesis_strategies.py:80-100 | as written, the walk from a twist raises ValueError on its second vector |
| Scenario.TwistTree | haros/hpl/hypothesis_strategies.py:80-100 | corrected, the walk from a twist creates the twist and the vector and succeeds |
| Scenario.NestedByMakeCustom | haros/hpl/hypothesis_strategies.py:1433-1441 | after `make_custom("m", "pkg/Nested")`, group "m" holds "pkg/Nested" and not "pkg/Nested2", so the last check fails |
| Scenario.NestedByMakeCustomTree | haros/hpl/hypothesis_strategies.py:1438-1442 | after `make_custom_tree` the group holds both types, and `get_custom` finds "pkg/Nested2" |
| Scenario.TwistByMakeCustomTreeAsWritten | haros/hpl/hypothesis_strategies.py:80-100 | as written, `make_custom_tree` of a twist raises ValueError |
| Scenario.TwistByMakeCustomTree | haros/hpl/hypothesis_strategies.py:80-100 | corrected, it returns the twist's strategy, and the group holds the vector's |

## Left out

- Floating point: float values and bounds are opaque literals. Float ranges (`RosFloatStrategy.TYPES`, 382-386) and the width argument are not modelled.
- The `to_python` templates of the top-level built-in strategies (bool, int, float, string, time, duration, header, 139-520) and of `DefaultMsgStrategy` (159-194) are left out. Only their names are modelled, through `ros_type_to_name`.
- `FieldStrategy`, `StrategyReference` and the strategy modifiers (`ExclusionModifier`, `RandomIndexModifier`, `StrategyModifier`) are not defined or imported anywhere in the module (its imports, 27-37, bring in only `itertools` and names from `ros_types`). As written, `StrategyMap(msg_data)` therefore raises NameError at line 126 for any message with a field, and the demonstration stops at line 1433. The model assumes a `make_default` in its place: `Generators.MakeDefault` (generators.dfy, the `Element` and `MakeDefault` functions) builds the default node of a field, with an empty field list for a composite. `Registry.DefaultFields`, `Registry.Defaults` and everything built on the registry rest on that assumed constructor. The demonstration's modifier lines (1444-1455) are left out.
- The contents of the `ros_types` module are not part of this model. `RosTypes` assumes the type-name sets (`ROS_INT_TYPES` and the rest, `ROS_BUILTIN_TYPES`), the integer limits and `TypeToken`/`ArrayTypeToken` (a field's type name, array flag and length) as the source's names and use suggest.
- The `BaseStrategy` family (`CustomTypes`, `JustValue`, `SampleValues`, `Numbers`, `Arrays`, `ByteArrays` and the rest, 1229-1365) is not used by the generator nodes and is left out.
- What a resolved selector renders as (lines 550-555) is not part of this model: the source text is cut off there. `Selectors.Resolve` stops at the walk.
- Indentation and tab size: every line is emitted at the module's default indentation.
- `repr`: a string value is rendered between single quotes, without Python's escapes or its choice of quotes.
- Node identity: nodes are values, so a node shared by two parents is two copies here. Shared-reference effects of the in-place mutation are therefore not captured.
- Dictionary iteration order: the source's order is arbitrary (Python 2); message fields are a sequence in one fixed order, and the driver's and the walk's lemmas hold for every order. Group and type order in `complete_custom_strategies` is arbitrary; its outcome does not depend on that order.
- `MsgStrategy._done`: its lifetime across calls is not modelled. `Messages.MsgStrategy.ToPython` returns the list of rendered nodes instead.
- Messages.Filters: the filter lines follow the order in which the driver rendered the nodes, not a second breadth-first pass of `_field_assumptions` over fields and children. The two orders can differ when nodes were re-queued.
- Messages.MsgStrategy.ToPython: uses `Messages.Filters`, so it has the same order, and it omits the `None` entries `_field_assumptions` appends (see `Messages.JoinedAssumptions` and the Findings row for 279-294). It also renders with the corrected `accepts`, `_assign_some` and `tree_to_python`. It does not mark the strategy's own nodes rendered: the source renders them in place, so a second `to_python()` of the same strategy, or of a custom strategy whose back-filled default nodes another strategy already rendered (108, 1434, 1458), raises AssertionError at its first rendered field, while the model renders it again.
- Messages.Attempt: a failed attempt leaves no trace on the node. As written, a failed attempt can leave state behind. A variable array's template composite sets `generated` (line 919) before one of its children raises ResolutionError, so the retry then fails the assertion at line 927. A selector step through `some()` sets `_some` (973-977). These partial effects are not modelled.
- Base.NatToString: Python 2 distinguishes `int` from `long`, and the `repr` of a `long` ends in "L". Like all integer values here, it models only plain `int`s.
- Base.IntToStringRoundTrip: models only plain `int`s; the "L" that `repr` appends to a `long` is not modelled.
- RosTypes.BoolAcceptsZeroOne: models only plain `int`s. Since `isinstance(1L, int)` is false, `accepts` raises TypeError for `1L`; that case is not modelled.
- The `TypeError` check on the shape of `msg_data` in `StrategyMap.__init__` (50-52) is left out, since the table's type rules it out.
- The printing in the demonstration block and the rest of the scrapper package are left out.
- RosTypes.TypeCheck: states `_type_check_value` with the corrected `accepts`. As written, every check on a field of a built-in scalar type raises ValueError (`RosTypes.TypeCheckAsWrittenRejects`).
- Generators.NeqTwiceMerges: like every lemma about `Apply`, it uses the corrected `accepts`. As written, `neq` on a built-in scalar raises ValueError and changes nothing (`Generators.MutatorsAsWrittenRaise`).
- Generators.EqAfterNeqKeepsConstant: uses the corrected `accepts`. As written, both calls raise ValueError and set nothing (`Generators.MutatorsAsWrittenRaise`).
- Generators.SecondChoiceInconsistent: uses the corrected `accepts`. As written, the type check raises ValueError before the InconsistencyError test, except for `in_set` with an empty tuple (`Generators.MutatorsAsWrittenRaise`).
- Generators.BoundOverwritten: uses the corrected `accepts`. As written, every bound on a built-in numeric type raises ValueError and leaves both bounds unchanged (`Generators.MutatorsAsWrittenRaise`).
- Generators.LtThenLtWidens: uses the corrected `accepts`. As written, `lt(5)` on an "int32" node already raises ValueError (`Generators.MutatorsAsWrittenRaise`).
- Registry.StrategyMap.MakeCustomTree: the ghost `made` map and `fresh` clauses describe which objects are new. Nothing about aliasing among older strategies is stated.

## Findings

| source | as written | input that shows it | evidently intended | confidence | as-written member | corrected member |
|---|---|---|---|---|---|---|
| haros/hpl/hypothesis_strategies.py:315-324 | `accepts` raises ValueError when the type is one of its own | `RosIntStrategy.accepts("int32", 5)` | raise only for a type that is not its own, and accept within range | not executed | RosTypes.AcceptsAsWrittenRejectsOwnTypes | RosTypes.IntAcceptsInRange |
| haros/hpl/hypothesis_strategies.py:1039-1046 | `_assign_some` reads `self._some.index` even when no representative is pending | rendering a fixed array of default elements on which `some()` was never called (AttributeError) | do nothing when no representative is pending | not executed | Generators.AssignSomeAsWrittenNeedsRepresentative | Generators.AssignSomeLowestDefault |
| haros/hpl/hypothesis_strategies.py:261-277 | `_init_fields` passes `module=module`, but no name `module` is bound there | `to_python()` of a message strategy with at least one field (NameError) | pass the `module` argument of `to_python` through | not executed | Messages.AsWrittenNeedsNoFields | Messages.MsgStrategy.ToPython |
| haros/hpl/hypothesis_strategies.py:279-294 | `_field_assumptions` never adds to `_done`, so its progress check fails after the first round. Even with `_done` growing, it appends `None` for every node without a filter, so the join at line 255 raises TypeError | any message with a field (CyclicDependencyError); with `_done` mended, any message with a composite, array or unconstrained scalar field (TypeError) | emit only the filter lines of the rendered nodes | not executed | Messages.AsWrittenNeedsNoFields, Messages.JoinedAssumptions | Messages.MsgStrategy.ToPython |
| haros/hpl/hypothesis_strategies.py:1116-1119 | `tree_to_python` sets `generated` before calling `to_python`, whose assertion then fails | a variable array inside a variable array of messages (AssertionError); the module's own constructors cannot build this tree, since copying a composite that holds an array raises AttributeError (935-940, 1062), so only a tree assembled by hand, or one from the undefined `make_default`, reaches it | set the flag after rendering | not executed | Rendering.NestedVarArrayExample | Rendering.TreeRenderRendersAll |
| haros/hpl/hypothesis_strategies.py:85-99 | `make_custom_tree` raises ValueError on a type the walk itself already created | `make_custom_tree("a", "geometry_msgs/Twist")`: both fields are vectors | pass over types already created by the walk | not executed | Scenario.TwistByMakeCustomTreeAsWritten | Registry.CorrectedWalkSucceeds |
| haros/hpl/hypothesis_strategies.py:1438-1441 | the demonstration calls `make_custom`, then checks that group "m" holds "pkg/Nested2" | `make_custom("m", "pkg/Nested")` on the demonstration table | `make_custom_tree`, which creates the whole tree | not executed | Scenario.NestedByMakeCustom | Scenario.NestedByMakeCustomTree |
