/**
 * The message table of the module's own demonstration code (geometry
 * messages, a bumper event, and a message with nested arrays) and the walks
 * `make_custom_tree` takes over it.
 */
module Scenario {
  import opened Base
  import opened RosTypes
  import opened Generators
  import opened Messages
  import opened Registry

  function Field(fieldName: string, rosType: string): Decl
  {
    Decl(fieldName, TypeToken(rosType, Single))
  }

  function List(fieldName: string, rosType: string): Decl
  {
    Decl(fieldName, TypeToken(rosType, VariableLength))
  }

  function Array3(fieldName: string, rosType: string): Decl
  {
    Decl(fieldName, TypeToken(rosType, FixedLength(3)))
  }

  const Twist: seq<Decl> := [Field("linear", "geometry_msgs/Vector3"), Field("angular", "geometry_msgs/Vector3")]
  const Vector3: seq<Decl> := [Field("x", "float64"), Field("y", "float64"), Field("z", "float64")]
  const BumperEvent: seq<Decl> := [Field("bumper", "uint8"), Field("state", "uint8")]
  const Msg: seq<Decl> := [
    Field("int", "int32"), Field("float", "float64"), Field("string", "string"),
    Field("twist", "geometry_msgs/Twist"),
    List("int_list", "int32"), Array3("int_array", "int32"),
    List("float_list", "float64"), Array3("float_array", "float64"),
    List("string_list", "string"), Array3("string_array", "string"),
    List("twist_list", "geometry_msgs/Twist"), Array3("twist_array", "geometry_msgs/Twist"),
    Array3("nested_array", "pkg/Nested")]
  const Nested: seq<Decl> := [Field("int", "int32"), Array3("int_array", "int32"), Array3("nested_array", "pkg/Nested2")]
  const Nested2: seq<Decl> := [Field("int", "int32"), Array3("int_array", "int32")]

  /** The demonstration table, each record's fields in the order they are written. */
  const TestData: map<string, seq<Decl>> := map[
    "geometry_msgs/Twist" := Twist,
    "geometry_msgs/Vector3" := Vector3,
    "kobuki_msgs/BumperEvent" := BumperEvent,
    "pkg/Msg" := Msg,
    "pkg/Nested" := Nested,
    "pkg/Nested2" := Nested2
  ]

  /** "pkg/Nested" refers to "pkg/Nested2" and otherwise to built-in types. */
  lemma NestedRefers()
    ensures NonBuiltinTypes(Nested) == ["pkg/Nested2"]
  {
    assert "int32" in BuiltinTypes;
    SlashedNotBuiltin("pkg/Nested2");
    assert NonBuiltinTypes(Nested[2..]) == ["pkg/Nested2"];
    assert NonBuiltinTypes(Nested[1..]) == ["pkg/Nested2"];
  }

  lemma Nested2Refers()
    ensures NonBuiltinTypes(Nested2) == []
  {
    assert "int32" in BuiltinTypes;
    assert NonBuiltinTypes(Nested2[1..]) == [];
  }

  /** Both fields of a twist are vectors. */
  lemma TwistRefers()
    ensures NonBuiltinTypes(Twist) == ["geometry_msgs/Vector3", "geometry_msgs/Vector3"]
  {
    SlashedNotBuiltin("geometry_msgs/Vector3");
    assert NonBuiltinTypes(Twist[1..]) == ["geometry_msgs/Vector3"];
  }

  lemma Vector3Refers()
    ensures NonBuiltinTypes(Vector3) == []
  {
    assert "float64" in BuiltinTypes;
    assert NonBuiltinTypes(Vector3[2..]) == [];
    assert NonBuiltinTypes(Vector3[1..]) == [];
  }

  /** The tree of "pkg/Nested" is that type and "pkg/Nested2", with or without passing over repeats. */
  lemma NestedTree(skipCreated: bool)
    ensures TreeWalk(TestData, {}, {}, ["pkg/Nested"], skipCreated) == ({"pkg/Nested", "pkg/Nested2"}, None)
  {
    var nested, nested2 := "pkg/Nested", "pkg/Nested2";
    NestedRefers();
    Nested2Refers();
    assert TestData[nested] == Nested && TestData[nested2] == Nested2;
    TreeWalkFirst(TestData, {}, {}, [nested], skipCreated);
    assert [nested][1..] + [nested2] == [nested2];
    assert {} + {nested} == {nested};
    TreeWalkFirst(TestData, {}, {nested}, [nested2], skipCreated);
    assert [nested2][1..] + [] == [];
    assert {nested} + {nested2} == {nested, nested2};
  }

  /** As written, the tree of a twist raises ValueError: its two fields both reach "geometry_msgs/Vector3". */
  lemma TwistTreeAsWritten()
    ensures TreeWalk(TestData, {}, {}, ["geometry_msgs/Twist"], false) ==
      ({"geometry_msgs/Twist", "geometry_msgs/Vector3"}, Some(ValueError))
  {
    var twist, vector := "geometry_msgs/Twist", "geometry_msgs/Vector3";
    TwistRefers();
    Vector3Refers();
    assert TestData[twist] == Twist && TestData[vector] == Vector3;
    TreeWalkFirst(TestData, {}, {}, [twist], false);
    assert [twist][1..] + [vector, vector] == [vector, vector];
    assert {} + {twist} == {twist};
    TreeWalkFirst(TestData, {}, {twist}, [vector, vector], false);
    assert [vector, vector][1..] + [] == [vector];
    assert {twist} + {vector} == {twist, vector};
  }

  /** Passing over a type already created, the tree of a twist is the twist and the vector. */
  lemma TwistTree()
    ensures TreeWalk(TestData, {}, {}, ["geometry_msgs/Twist"], true) ==
      ({"geometry_msgs/Twist", "geometry_msgs/Vector3"}, None)
  {
    var twist, vector := "geometry_msgs/Twist", "geometry_msgs/Vector3";
    TwistRefers();
    Vector3Refers();
    assert TestData[twist] == Twist && TestData[vector] == Vector3;
    TreeWalkFirst(TestData, {}, {}, [twist], true);
    assert [twist][1..] + [vector, vector] == [vector, vector];
    assert {} + {twist} == {twist};
    TreeWalkFirst(TestData, {}, {twist}, [vector, vector], true);
    assert [vector, vector][1..] + [] == [vector];
    assert {twist} + {vector} == {twist, vector};
    TreeWalkSkip(TestData, {}, {twist, vector}, [vector]);
    assert [vector][1..] == [];
  }

  /**
   * The module's own check, as written: `make_custom("m", "pkg/Nested")`
   * creates the strategy of "pkg/Nested" alone, so the check that group "m"
   * also holds "pkg/Nested2" fails.
   */
  method NestedByMakeCustom() returns (nestedHeld: bool, nested2Held: bool)
    ensures nestedHeld && !nested2Held
  {
    var sm := new StrategyMap(TestData);
    var r := sm.MakeCustom("m", "pkg/Nested");
    nestedHeld := "m" in sm.custom && "pkg/Nested" in sm.custom["m"];
    nested2Held := "m" in sm.custom && "pkg/Nested2" in sm.custom["m"];
  }

  /** The same check with `make_custom_tree`, which it evidently means: group "m" holds both types. */
  method NestedByMakeCustomTree() returns (nestedHeld: bool, nested2Held: bool, found: Result<MsgStrategy>)
    ensures nestedHeld && nested2Held && found.Ok? && found.value.msgType == "pkg/Nested2"
  {
    var sm := new StrategyMap(TestData);
    ghost var c0 := sm.custom;
    ghost var none: map<string, MsgStrategy> := map[];
    assert GroupOf(c0, "m") == none && none.Keys == {};
    var r, made := sm.MakeCustomTree("m", "pkg/Nested");
    ghost var walk := TreeWalk(sm.msgData, GroupOf(c0, "m").Keys, {}, ["pkg/Nested"], true);
    assert made.Keys == walk.0;
    NestedTree(true);
    assert walk.0 == {"pkg/Nested", "pkg/Nested2"};
    assert "pkg/Nested" in made && "pkg/Nested2" in made;
    assert sm.custom["m"] == none + made;
    nestedHeld := "m" in sm.custom && "pkg/Nested" in sm.custom["m"];
    nested2Held := "m" in sm.custom && "pkg/Nested2" in sm.custom["m"];
    found := sm.GetCustom("m", "pkg/Nested2");
  }

  /** As written, the tree of a twist cannot be made: its vector type is reached twice. */
  method TwistByMakeCustomTreeAsWritten() returns (r: Result<MsgStrategy>)
    ensures r == Err(ValueError)
  {
    var sm := new StrategyMap(TestData);
    ghost var c0 := sm.custom;
    assert GroupOf(c0, "a").Keys == {};
    ghost var made;
    r, made := sm.MakeCustomTreeAsWritten("a", "geometry_msgs/Twist");
    ghost var walk := TreeWalk(sm.msgData, GroupOf(c0, "a").Keys, {}, ["geometry_msgs/Twist"], false);
    assert walk.1 == Some(ValueError) by { TwistTreeAsWritten(); }
  }

  /** Passing over repeats, the tree of a twist is made, the twist strategy first among it. */
  method TwistByMakeCustomTree() returns (r: Result<MsgStrategy>, vectorHeld: bool)
    ensures r.Ok? && r.value.msgType == "geometry_msgs/Twist" && vectorHeld
  {
    var sm := new StrategyMap(TestData);
    ghost var c0 := sm.custom;
    ghost var none: map<string, MsgStrategy> := map[];
    assert GroupOf(c0, "b") == none && none.Keys == {};
    ghost var made;
    r, made := sm.MakeCustomTree("b", "geometry_msgs/Twist");
    ghost var walk := TreeWalk(sm.msgData, GroupOf(c0, "b").Keys, {}, ["geometry_msgs/Twist"], true);
    assert made.Keys == walk.0;
    TwistTree();
    assert walk.0 == {"geometry_msgs/Twist", "geometry_msgs/Vector3"} && walk.1.None?;
    assert r == Ok(made["geometry_msgs/Twist"]);
    assert made["geometry_msgs/Twist"].msgType == "geometry_msgs/Twist";
    assert "geometry_msgs/Vector3" in made;
    assert sm.custom["b"] == none + made;
    vectorHeld := "b" in sm.custom && "geometry_msgs/Vector3" in sm.custom["b"];
  }
}
