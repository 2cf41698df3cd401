/**
 * Built-in scalar types: the integer range table, the `accepts` value checks
 * of the built-in strategies, the value check a field applies before a
 * constraint, and the naming of generator functions.
 */
module RosTypes {
  import opened Base

  const INT8_MIN: int := -0x80
  const INT8_MAX: int := 0x7F
  const UINT8_MAX: int := 0xFF
  const INT16_MIN: int := -0x8000
  const INT16_MAX: int := 0x7FFF
  const UINT16_MAX: int := 0xFFFF
  const INT32_MIN: int := -0x8000_0000
  const INT32_MAX: int := 0x7FFF_FFFF
  const UINT32_MAX: int := 0xFFFF_FFFF
  const INT64_MIN: int := -0x8000_0000_0000_0000
  const INT64_MAX: int := 0x7FFF_FFFF_FFFF_FFFF
  const UINT64_MAX: int := 0xFFFF_FFFF_FFFF_FFFF

  /** `RosIntStrategy.TYPES`: each integer type with its inclusive range. */
  const IntRanges: map<string, (int, int)> := map[
    "char" := (0, UINT8_MAX),
    "uint8" := (0, UINT8_MAX),
    "byte" := (INT8_MIN, INT8_MAX),
    "int8" := (INT8_MIN, INT8_MAX),
    "uint16" := (0, UINT16_MAX),
    "int16" := (INT16_MIN, INT16_MAX),
    "uint32" := (0, UINT32_MAX),
    "int32" := (INT32_MIN, INT32_MAX),
    "uint64" := (0, UINT64_MAX),
    "int64" := (INT64_MIN, INT64_MAX)
  ]

  const IntTypes: set<string> := {"char", "uint8", "byte", "int8", "uint16", "int16", "uint32", "int32", "uint64", "int64"}
  const FloatTypes: set<string> := {"float32", "float64"}
  const BoolTypes: set<string> := {"bool"}
  const StringTypes: set<string> := {"string"}
  const NumberTypes: set<string> := IntTypes + FloatTypes

  /** The types `_make_builtins` registers a strategy for, plus the short name "Header". */
  const BuiltinTypes: set<string> :=
    NumberTypes + BoolTypes + StringTypes + {"time", "duration", "std_msgs/Header", "Header"}

  /** The four built-in strategies that define `accepts`. */
  datatype ScalarKind = IntKind | FloatKind | BoolKind | StringKind

  function KindTypes(k: ScalarKind): set<string>
  {
    match k
    case IntKind => IntTypes
    case FloatKind => FloatTypes
    case BoolKind => BoolTypes
    case StringKind => StringTypes
  }

  /** What `accepts` does once the type test has passed. */
  function AcceptsValue(k: ScalarKind, rosType: string, v: Value): Result<bool>
  {
    if v.VSelector? then Ok(v.rosType == rosType)
    else match k
      case IntKind =>
        if IntValue(v).None? then Err(TypeError)
        else if rosType !in IntRanges then Err(KeyError)
        else Ok(IntRanges[rosType].0 <= IntValue(v).value <= IntRanges[rosType].1)
      case BoolKind =>
        // `isinstance(value, int)` holds for Python's booleans too
        if IntValue(v).Some? then Ok(IntValue(v).value == 0 || IntValue(v).value == 1)
        else Err(TypeError)
      case FloatKind =>
        if v.VFloat? then Ok(true) else Err(TypeError)
      case StringKind =>
        if v.VStr? then Ok(true) else Err(TypeError)
  }

  /** `accepts` as the source writes it: the type test is inverted. */
  function AcceptsAsWritten(k: ScalarKind, rosType: string, v: Value): Result<bool>
  {
    if rosType in KindTypes(k) then Err(ValueError) else AcceptsValue(k, rosType, v)
  }

  /** `accepts` with the type test the error message describes: reject an unknown type. */
  function Accepts(k: ScalarKind, rosType: string, v: Value): Result<bool>
  {
    if rosType !in KindTypes(k) then Err(ValueError) else AcceptsValue(k, rosType, v)
  }

  /** As written, every `accepts` call for a type of its own kind raises ValueError. */
  lemma AcceptsAsWrittenRejectsOwnTypes(k: ScalarKind, rosType: string, v: Value)
    requires rosType in KindTypes(k)
    ensures AcceptsAsWritten(k, rosType, v) == Err(ValueError)
  {
  }

  /** As written, no integer value is ever accepted: the range lookup fails on the types that pass. */
  lemma AcceptsAsWrittenNeverAcceptsInts(rosType: string, v: Value)
    requires !v.VSelector?
    ensures AcceptsAsWritten(IntKind, rosType, v) != Ok(true)
  {
  }

  /** The corrected integer check: in range, both directions. */
  lemma IntAcceptsInRange(rosType: string, v: Value)
    requires rosType in IntTypes && IntValue(v).Some?
    ensures Accepts(IntKind, rosType, v) == Ok(IntRanges[rosType].0 <= IntValue(v).value <= IntRanges[rosType].1)
  {
  }

  /** A boolean field accepts exactly the integers 0 and 1 (and so True and False). */
  lemma BoolAcceptsZeroOne(v: Value)
    requires !v.VSelector?
    ensures Accepts(BoolKind, "bool", v) == Ok(true) <==> IntValue(v).Some? && (IntValue(v).value == 0 || IntValue(v).value == 1)
    ensures Accepts(BoolKind, "bool", v).Err? <==> IntValue(v).None?
  {
  }

  /** Every integer range is well-formed and contains 0, and `uintN` spans 2^N values. */
  lemma IntRangesWellFormed()
    ensures forall t :: t in IntRanges ==> IntRanges[t].0 <= 0 < IntRanges[t].1
    ensures IntRanges["uint8"].1 + 1 == 0x100 && IntRanges["uint16"].1 + 1 == 0x1_0000
    ensures IntRanges["uint32"].1 + 1 == 0x1_0000_0000 && IntRanges["uint64"].1 + 1 == 0x1_0000_0000_0000_0000
    ensures forall t :: t in IntRanges && IntRanges[t].0 < 0 ==> IntRanges[t].0 == -(IntRanges[t].1 + 1)
  {
  }

  /** The outcome of the corrected or the as-written `accepts`, turned into the error `_type_check_value` raises. */
  function CheckWith(k: ScalarKind, rosType: string, v: Value, corrected: bool): Option<Error>
  {
    match (if corrected then Accepts(k, rosType, v) else AcceptsAsWritten(k, rosType, v))
    case Err(e) => Some(e)
    case Ok(b) => if b then None else Some(ValueError)
  }

  /**
   * `_type_check_value`: the check of the kind the field's type belongs to, if
   * any; other types (time, duration, composites) are not checked.
   */
  function TypeCheckWith(rosType: string, v: Value, corrected: bool): Option<Error>
  {
    if rosType in IntTypes then CheckWith(IntKind, rosType, v, corrected)
    else if rosType in FloatTypes then CheckWith(FloatKind, rosType, v, corrected)
    else if rosType in BoolTypes then CheckWith(BoolKind, rosType, v, corrected)
    else if rosType in StringTypes then CheckWith(StringKind, rosType, v, corrected)
    else None
  }

  /** `_type_check_value` with the corrected `accepts`. */
  function TypeCheck(rosType: string, v: Value): (r: Option<Error>)
    ensures rosType !in IntTypes + FloatTypes + BoolTypes + StringTypes ==> r.None?
    ensures rosType in IntTypes && IntValue(v).Some? ==>
      (r.None? <==> IntRanges[rosType].0 <= IntValue(v).value <= IntRanges[rosType].1)
    ensures rosType in IntTypes + FloatTypes + BoolTypes + StringTypes && v.VSelector? ==>
      (r.None? <==> v.rosType == rosType)
  {
    TypeCheckWith(rosType, v, true)
  }

  /**
   * As written, `_type_check_value` raises ValueError for every value, a
   * selector included, on a field of a built-in scalar type, and passes
   * everything else.
   */
  lemma TypeCheckAsWrittenRejects(rosType: string, v: Value)
    ensures rosType in IntTypes + FloatTypes + BoolTypes + StringTypes ==> TypeCheckWith(rosType, v, false) == Some(ValueError)
    ensures rosType !in IntTypes + FloatTypes + BoolTypes + StringTypes ==> TypeCheckWith(rosType, v, false).None?
  {
  }

  /** `ros_type_to_name`: the name of the generator function emitted for a type. */
  function RosTypeToName(rosType: string): (r: string)
  {
    if '/' in rosType then ReplaceChar(rosType, '/', '_')
    else if rosType == "Header" then "std_msgs_Header"
    else "ros_" + rosType
  }

  /** The `name` property of the built-in strategies. */
  function BuiltinStrategyName(rosType: string): string
  {
    if rosType in {"std_msgs/Header", "Header"} then "std_msgs_Header" else "ros_" + rosType
  }

  /** The names emitted for field types agree with the names the built-in strategies define. */
  lemma BuiltinNamesAgree(t: string)
    requires t in BuiltinTypes
    ensures RosTypeToName(t) == BuiltinStrategyName(t)
  {
    if t == "std_msgs/Header" {
      HeaderNameAgrees();
    } else if t != "Header" {
      NoSlashInScalarNames(t);
    }
  }

  lemma HeaderNameAgrees()
    ensures RosTypeToName("std_msgs/Header") == "std_msgs_Header"
  {
    var p, m := "std_msgs", "Header";
    assert '/' !in p && '/' !in m;
    ReplaceSeparator(p, m);
    assert p + "/" + m == "std_msgs/Header";
    assert p + "_" + m == "std_msgs_Header";
  }

  lemma NoSlashInScalarNames(t: string)
    requires t in BuiltinTypes - {"std_msgs/Header", "Header"}
    ensures '/' !in t && RosTypeToName(t) == "ros_" + t && BuiltinStrategyName(t) == "ros_" + t
  {
  }

  /** A type with a '/' is built in only as "std_msgs/Header". */
  lemma SlashedNotBuiltin(t: string)
    requires '/' in t && t != "std_msgs/Header"
    ensures t !in BuiltinTypes
  {
  }

  /** A message type "pkg/Msg" is named "pkg_Msg"; the name has no '/'. */
  lemma MessageNameHasNoSlash(t: string)
    requires '/' in t
    ensures '/' !in RosTypeToName(t) && |RosTypeToName(t)| == |t|
  {
    ReplaceCharRemoves(t, '/', '_');
  }
}
