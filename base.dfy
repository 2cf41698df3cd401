/**
 * Shared vocabulary of the generator engine: results and errors, the values a
 * caller may attach to a field, and the small string operations the code
 * emitter is built from.
 */
module Base {

  datatype Option<+T> = None | Some(value: T)

  datatype Result<+T> = Ok(value: T) | Err(error: Error)

  /** The exception kinds the engine raises (Python's built-in ones and its own). */
  datatype Error =
    | TypeError
    | ValueError
    | KeyError
    | IndexError
    | AttributeError
    | NameError
    | AssertionError
    | NotImplementedError
    | InconsistencyError
    | UnsupportedOperationError
    | ResolutionError(fieldName: string)
    | CyclicDependencyError

  /**
   * One step of a selector path: a field name, a position in an array's
   * element list, "all elements" or "any one element".
   */
  datatype PathStep = Name(name: string) | Index(position: int) | All | AnyOne

  /**
   * A value a caller may pass to a constraint. Python's `bool` is a subclass of
   * `int`, which the type checks take into account. Floats are kept as their
   * literal text only.
   */
  datatype Value =
    | VBool(b: bool)
    | VInt(i: int)
    | VFloat(literal: string)
    | VStr(s: string)
    | VTuple(items: seq<Value>)
    | VList(items: seq<Value>)
    | VSelector(steps: seq<PathStep>, rosType: string)

  /** The integer a value stands for when Python treats it as an `int`. */
  function IntValue(v: Value): Option<int>
  {
    match v
    case VInt(i) => Some(i)
    case VBool(b) => Some(if b then 1 else 0)
    case _ => None
  }

  // ---------------------------------------------------------------------------
  // Strings
  // ---------------------------------------------------------------------------

  /** `s.replace(a, b)` for single characters. */
  function ReplaceChar(s: string, a: char, b: char): (r: string)
    ensures |r| == |s|
  {
    if s == [] then [] else [if s[0] == a then b else s[0]] + ReplaceChar(s[1..], a, b)
  }

  /** Each character `a` becomes `b`; every other character stays. */
  lemma {:induction false} ReplaceCharAt(s: string, a: char, b: char, i: nat)
    requires i < |s|
    ensures ReplaceChar(s, a, b)[i] == (if s[i] == a then b else s[i])
  {
    if i > 0 { ReplaceCharAt(s[1..], a, b, i - 1); }
  }

  lemma {:induction false} ReplaceCharAppend(s: string, t: string, a: char, b: char)
    ensures ReplaceChar(s + t, a, b) == ReplaceChar(s, a, b) + ReplaceChar(t, a, b)
  {
    if s == [] {
      assert s + t == t;
    } else {
      assert (s + t)[1..] == s[1..] + t;
      ReplaceCharAppend(s[1..], t, a, b);
    }
  }

  lemma {:induction false} ReplaceCharAbsent(s: string, a: char, b: char)
    requires a !in s
    ensures ReplaceChar(s, a, b) == s
  {
    if s != [] {
      ReplaceCharAbsent(s[1..], a, b);
      assert s == [s[0]] + s[1..];
    }
  }

  /** After the replacement no `a` is left (when `a` and `b` differ). */
  lemma {:induction false} ReplaceCharRemoves(s: string, a: char, b: char)
    requires a != b
    ensures a !in ReplaceChar(s, a, b)
  {
    if s != [] { ReplaceCharRemoves(s[1..], a, b); }
  }

  /** A "pkg/msg" type name with one separator becomes "pkg_msg". */
  lemma ReplaceSeparator(pkg: string, msg: string)
    requires '/' !in pkg && '/' !in msg
    ensures ReplaceChar(pkg + "/" + msg, '/', '_') == pkg + "_" + msg
  {
    ReplaceCharAppend(pkg + "/", msg, '/', '_');
    ReplaceCharAppend(pkg, "/", '/', '_');
    ReplaceCharAbsent(pkg, '/', '_');
    ReplaceCharAbsent(msg, '/', '_');
    assert ReplaceChar("/", '/', '_') == "_";
  }

  /** `sep.join(parts)`. */
  function Join(sep: string, parts: seq<string>): string
  {
    if parts == [] then ""
    else if |parts| == 1 then parts[0]
    else parts[0] + sep + Join(sep, parts[1..])
  }

  function Count(s: string, c: char): nat
  {
    if s == [] then 0 else (if s[0] == c then 1 else 0) + Count(s[1..], c)
  }

  /** Index of the first occurrence of `c`, if any. */
  function Find(s: string, c: char): (r: Option<nat>)
    ensures r.Some? ==> r.value < |s| && s[r.value] == c && c !in s[..r.value]
    ensures r.None? ==> c !in s
  {
    if s == [] then None
    else if s[0] == c then Some(0)
    else match Find(s[1..], c)
      case None => None
      case Some(k) => Some(k + 1)
  }

  lemma {:induction false} CountZero(s: string, c: char)
    ensures Count(s, c) == 0 <==> c !in s
  {
    if s != [] {
      CountZero(s[1..], c);
      assert s == [s[0]] + s[1..];
    }
  }

  lemma {:induction false} CountAppend(a: string, b: string, c: char)
    ensures Count(a + b, c) == Count(a, c) + Count(b, c)
  {
    if a == [] {
      assert a + b == b;
    } else {
      assert (a + b)[1..] == a[1..] + b;
      CountAppend(a[1..], b, c);
    }
  }

  /**
   * Python's two-target unpacking `pkg, msg = s.split("/")`: it succeeds only
   * when the separator occurs exactly once, and raises ValueError otherwise.
   */
  function SplitPair(s: string, c: char): (r: Result<(string, string)>)
    ensures r.Ok? <==> Count(s, c) == 1
    ensures r.Ok? ==> s == r.value.0 + [c] + r.value.1 && c !in r.value.0 && c !in r.value.1
    ensures r.Err? ==> r.error == ValueError
  {
    match Find(s, c)
    case None =>
      CountZero(s, c);
      Err(ValueError)
    case Some(k) =>
      var pkg, rest := s[..k], s[k + 1..];
      assert s == pkg + [c] + rest;
      CountAppend(pkg + [c], rest, c);
      CountAppend(pkg, [c], c);
      CountZero(pkg, c);
      CountZero(rest, c);
      if c in rest then Err(ValueError) else Ok((pkg, rest))
  }

  function DigitChar(d: nat): char
    requires d < 10
  {
    ('0' as int + d) as char
  }

  function NatToString(n: nat): (r: string)
    ensures |r| >= 1
    ensures forall i :: 0 <= i < |r| ==> '0' <= r[i] <= '9'
    decreases n
  {
    if n < 10 then [DigitChar(n)] else NatToString(n / 10) + [DigitChar(n % 10)]
  }

  /** The decimal text Python's `repr` gives an integer. */
  function IntToString(i: int): string
  {
    if i < 0 then "-" + NatToString(-i) else NatToString(i)
  }

  /** Reads back a decimal numeral (the partner of NatToString). */
  function ParseNat(s: string): int
    decreases |s|
  {
    if s == [] then 0 else ParseNat(s[..|s| - 1]) * 10 + (s[|s| - 1] as int - '0' as int)
  }

  function ParseInt(s: string): int
  {
    if |s| > 0 && s[0] == '-' then -ParseNat(s[1..]) else ParseNat(s)
  }

  lemma {:induction false} ParseNatToString(n: nat)
    ensures ParseNat(NatToString(n)) == n
    decreases n
  {
    var s := NatToString(n);
    assert s[|s| - 1] as int - '0' as int == n % 10;
    if n >= 10 {
      assert s[..|s| - 1] == NatToString(n / 10);
      ParseNatToString(n / 10);
    }
  }

  /** Integer text reads back to the same integer. */
  lemma IntToStringRoundTrip(i: int)
    ensures ParseInt(IntToString(i)) == i
  {
    if i < 0 {
      assert IntToString(i)[1..] == NatToString(-i);
      ParseNatToString(-i);
    } else {
      ParseNatToString(i);
    }
  }

  // ---------------------------------------------------------------------------
  // Rendering values as Python source
  // ---------------------------------------------------------------------------

  /**
   * Stands for Python's `repr` of a scalar: booleans and integers as Python
   * writes them, strings between single quotes (escapes are not modelled),
   * floats by their literal.
   */
  function ScalarRepr(v: Value): string
  {
    match v
    case VBool(b) => if b then "True" else "False"
    case VInt(i) => IntToString(i)
    case VFloat(lit) => lit
    case VStr(s) => "'" + s + "'"
    case _ => ""
  }

  function StepText(p: PathStep): string
  {
    match p
    case Name(n) => n
    case Index(i) => IntToString(i)
    case All => "*"
    case AnyOne => "?"
  }

  function StepsText(ps: seq<PathStep>): seq<string>
  {
    if ps == [] then [] else [StepText(ps[0])] + StepsText(ps[1..])
  }

  /**
   * `value_to_python`: tuples and lists recursively. A selector's text is a
   * placeholder ("select(" and its path): what `Selector.to_python` emits is
   * cut off in the source (lines 550-555) and is not part of this model.
   */
  function ValueToPython(v: Value): string
    decreases v, 1
  {
    match v
    case VTuple(items) => "(" + Join(", ", ItemsToPython(items)) + ")"
    case VList(items) => "(" + Join(", ", ItemsToPython(items)) + ")"
    case VSelector(steps, _) => "select(" + Join(".", StepsText(steps)) + ")"
    case _ => ScalarRepr(v)
  }

  function ItemsToPython(vs: seq<Value>): (r: seq<string>)
    ensures |r| == |vs|
    decreases vs, 0
  {
    if vs == [] then [] else [ValueToPython(vs[0])] + ItemsToPython(vs[1..])
  }

  lemma {:induction false} ItemsToPythonAt(vs: seq<Value>, k: nat)
    requires k < |vs|
    ensures ItemsToPython(vs)[k] == ValueToPython(vs[k])
  {
    if k > 0 { ItemsToPythonAt(vs[1..], k - 1); }
  }

  lemma {:induction false} JoinTwo(sep: string, a: string, b: string)
    ensures Join(sep, [a, b]) == a + sep + b
  {
    assert [a, b][1..] == [b];
  }

  /**
   * A collection renders as its elements' texts, comma-separated, between
   * parentheses; so a one-element tuple renders as "(x)", without the comma
   * that would make it a Python tuple.
   */
  lemma TupleRendering(a: Value, b: Value)
    ensures ValueToPython(VTuple([a, b])) == "(" + ValueToPython(a) + ", " + ValueToPython(b) + ")"
    ensures ValueToPython(VTuple([a])) == "(" + ValueToPython(a) + ")"
  {
    var items := ItemsToPython([a, b]);
    ItemsToPythonAt([a, b], 0);
    ItemsToPythonAt([a, b], 1);
    assert items == [ValueToPython(a), ValueToPython(b)];
    JoinTwo(", ", ValueToPython(a), ValueToPython(b));
    ItemsToPythonAt([a], 0);
  }
}
