/**
 * The strategy registry (`StrategyMap`): the table of message types, the
 * default strategies (built-in scalars and a default tree per message type),
 * and groups of custom message strategies, which are created one type at a
 * time or for a whole tree of types, and back-filled from the defaults.
 */
module Registry {
  import opened Base
  import opened RosTypes
  import opened Generators
  import opened Messages

  /** One declared field of a message type, in declaration order. */
  datatype Decl = Decl(fieldName: string, token: TypeToken)

  /** A default strategy: a built-in scalar's, or a message type's default tree. */
  datatype TopLevel =
    | BuiltinStrategy(rosType: string)
    | DefaultTree(msgType: string, name: string, fields: seq<Gen>)

  /** The types `_make_builtins` registers a strategy for. */
  const BuiltinKeys: set<string> := NumberTypes + BoolTypes + StringTypes + {"time", "duration", "std_msgs/Header"}

  function Builtins(): map<string, TopLevel>
  {
    map t | t in BuiltinKeys :: BuiltinStrategy(t)
  }

  /** The default node of every declared field, in declaration order. */
  function DefaultFields(decls: seq<Decl>): seq<Gen>
  {
    if decls == [] then [] else [MakeDefault(decls[0].fieldName, decls[0].token)] + DefaultFields(decls[1..])
  }

  /** Each declared field gets its default node, under its own name, in declaration order. */
  lemma {:induction false} DefaultFieldsAt(decls: seq<Decl>)
    ensures |DefaultFields(decls)| == |decls|
    ensures forall i :: 0 <= i < |decls| ==> DefaultFields(decls)[i] == MakeDefault(decls[i].fieldName, decls[i].token)
    ensures forall i :: 0 <= i < |decls| ==>
      (DefaultFields(decls)[i].info.fieldName == decls[i].fieldName && IsDefault(DefaultFields(decls)[i]))
  {
    if decls != [] {
      DefaultFieldsAt(decls[1..]);
    }
  }

  /** The default tree `_make_defaults` builds for a declared message type. */
  function DefaultOf(data: map<string, seq<Decl>>, t: string): TopLevel
    requires t in data
  {
    DefaultTree(t, RosTypeToName(t), DefaultFields(data[t]))
  }

  /** `"{group}_{type}"` with every '/' of the type replaced by '_'. */
  function CustomName(group: string, msgType: string): string
  {
    group + "_" + ReplaceChar(msgType, '/', '_')
  }

  /** `self.custom.get(group)`, or the empty group it is replaced with. */
  function GroupOf(custom: map<string, map<string, MsgStrategy>>, group: string): map<string, MsgStrategy>
  {
    if group in custom then custom[group] else map[]
  }

  /** The field types `make_custom_tree` follows from a record: the non-built-in ones, in order. */
  function NonBuiltinTypes(decls: seq<Decl>): seq<string>
  {
    if decls == [] then []
    else (if decls[0].token.rosType in BuiltinTypes then [] else [decls[0].token.rosType]) + NonBuiltinTypes(decls[1..])
  }

  /** Exactly the declared types that are not built in are followed. */
  lemma {:induction false} NonBuiltinTypesAt(decls: seq<Decl>)
    ensures forall t :: t in NonBuiltinTypes(decls) ==> t !in BuiltinTypes
    ensures forall i :: 0 <= i < |decls| && decls[i].token.rosType !in BuiltinTypes ==>
      decls[i].token.rosType in NonBuiltinTypes(decls)
  {
    if decls != [] {
      NonBuiltinTypesAt(decls[1..]);
      var r := NonBuiltinTypes(decls);
      forall i | 0 <= i < |decls| && decls[i].token.rosType !in BuiltinTypes
        ensures decls[i].token.rosType in r
      {
        if i > 0 {
          assert decls[i] == decls[1..][i - 1];
        }
      }
    }
  }

  /**
   * The breadth-first walk of `make_custom_tree` from a queue of types: the
   * set of types created once it stops, and the error that stops it. `known`
   * holds the types the group held before the walk, `created` those the walk
   * has created so far. A type not in the table, or already in the group,
   * raises ValueError. With `skipCreated` a type the walk itself has already
   * created is passed over instead, as the walk evidently means to do.
   */
  function TreeWalk(data: map<string, seq<Decl>>, known: set<string>, created: set<string>, queue: seq<string>,
                    skipCreated: bool): (set<string>, Option<Error>)
    decreases data.Keys - created, |queue|
  {
    if queue == [] then (created, None)
    else
      var t := queue[0];
      if skipCreated && t in created then TreeWalk(data, known, created, queue[1..], skipCreated)
      else if t !in data || t in known || t in created then (created, Some(ValueError))
      else TreeWalk(data, known, created + {t}, queue[1..] + NonBuiltinTypes(data[t]), skipCreated)
  }

  /** The first step of the walk when the type at the head of the queue is new and in the table. */
  lemma TreeWalkFirst(data: map<string, seq<Decl>>, known: set<string>, created: set<string>, queue: seq<string>,
                      skipCreated: bool)
    requires queue != [] && queue[0] in data && queue[0] !in known && queue[0] !in created
    ensures TreeWalk(data, known, created, queue, skipCreated) ==
      TreeWalk(data, known, created + {queue[0]}, queue[1..] + NonBuiltinTypes(data[queue[0]]), skipCreated)
  {
  }

  /** The corrected walk passes over a type it has already created. */
  lemma TreeWalkSkip(data: map<string, seq<Decl>>, known: set<string>, created: set<string>, queue: seq<string>)
    requires queue != [] && queue[0] in created
    ensures TreeWalk(data, known, created, queue, true) == TreeWalk(data, known, created, queue[1..], true)
  {
  }

  /** A type not in the table, or held already and not passed over, stops the walk with ValueError. */
  lemma TreeWalkStop(data: map<string, seq<Decl>>, known: set<string>, created: set<string>, queue: seq<string>,
                     skipCreated: bool)
    requires queue != [] && !(skipCreated && queue[0] in created)
    requires queue[0] !in data || queue[0] in known || queue[0] in created
    ensures TreeWalk(data, known, created, queue, skipCreated) == (created, Some(ValueError))
  {
  }

  /**
   * The walk only adds to what it has created, and what it adds are types of
   * the table the group did not hold.
   */
  lemma {:induction false} TreeWalkCreates(data: map<string, seq<Decl>>, known: set<string>, created: set<string>,
                                           queue: seq<string>, skipCreated: bool)
    ensures created <= TreeWalk(data, known, created, queue, skipCreated).0
    ensures TreeWalk(data, known, created, queue, skipCreated).0 - created <= data.Keys - known
    decreases data.Keys - created, |queue|
  {
    if queue != [] {
      var t := queue[0];
      if skipCreated && t in created {
        TreeWalkCreates(data, known, created, queue[1..], skipCreated);
      } else if t in data && t !in known && t !in created {
        TreeWalkCreates(data, known, created + {t}, queue[1..] + NonBuiltinTypes(data[t]), skipCreated);
      }
    }
  }

  /** A walk from one type of the table the group does not hold creates that type, whatever stops it. */
  lemma TreeWalkHead(data: map<string, seq<Decl>>, known: set<string>, t: string, skipCreated: bool)
    requires t in data && t !in known
    ensures t in TreeWalk(data, known, {}, [t], skipCreated).0
  {
    var next := [t][1..] + NonBuiltinTypes(data[t]);
    TreeWalkFirst(data, known, {}, [t], skipCreated);
    assert {} + {t} == {t};
    TreeWalkCreates(data, known, {t}, next, skipCreated);
  }

  /** Every type of the table in `s` refers, through its fields, only to types in `s`. */
  predicate RefersWithin(data: map<string, seq<Decl>>, s: set<string>)
  {
    forall u, v :: u in s && u in data && v in NonBuiltinTypes(data[u]) ==> v in s
  }

  /** The table declares every message type its records refer to. */
  predicate Closed(data: map<string, seq<Decl>>)
  {
    RefersWithin(data, data.Keys)
  }

  /** Every type of the table created so far refers only to types created or still queued. */
  predicate Pending(data: map<string, seq<Decl>>, created: set<string>, queue: seq<string>)
  {
    forall u, v :: u in created && u in data && v in NonBuiltinTypes(data[u]) ==> v in created || v in queue
  }

  /** Passing over a created type keeps `Pending`. */
  lemma PendingSkip(data: map<string, seq<Decl>>, created: set<string>, queue: seq<string>)
    requires queue != [] && queue[0] in created && Pending(data, created, queue)
    ensures Pending(data, created, queue[1..])
  {
    forall u, v | u in created && u in data && v in NonBuiltinTypes(data[u]) && v !in created
      ensures v in queue[1..]
    {
      var i :| 0 <= i < |queue| && queue[i] == v;
      assert queue[1..][i - 1] == v;
    }
  }

  /** Creating the head of the queue and queueing the types it refers to keeps `Pending`. */
  lemma PendingCreate(data: map<string, seq<Decl>>, created: set<string>, queue: seq<string>)
    requires queue != [] && queue[0] in data && Pending(data, created, queue)
    ensures Pending(data, created + {queue[0]}, queue[1..] + NonBuiltinTypes(data[queue[0]]))
  {
    var next := queue[1..] + NonBuiltinTypes(data[queue[0]]);
    forall u, v | u in created + {queue[0]} && u in data && v in NonBuiltinTypes(data[u]) && v !in created + {queue[0]}
      ensures v in next
    {
      if u != queue[0] {
        var i :| 0 <= i < |queue| && queue[i] == v;
        assert next[i - 1] == v;
      }
    }
  }

  /**
   * A walk that does not raise creates every type in its queue and every type
   * a created type refers to, provided each type created before refers only
   * to types created or queued.
   */
  lemma {:induction false} TreeWalkCloses(data: map<string, seq<Decl>>, known: set<string>, created: set<string>,
                                          queue: seq<string>, skipCreated: bool)
    requires TreeWalk(data, known, created, queue, skipCreated).1 == None
    requires Pending(data, created, queue)
    ensures forall i :: 0 <= i < |queue| ==> queue[i] in TreeWalk(data, known, created, queue, skipCreated).0
    ensures RefersWithin(data, TreeWalk(data, known, created, queue, skipCreated).0)
    decreases data.Keys - created, |queue|
  {
    if queue != [] {
      var t := queue[0];
      var r := TreeWalk(data, known, created, queue, skipCreated).0;
      if skipCreated && t in created {
        PendingSkip(data, created, queue);
        TreeWalkCloses(data, known, created, queue[1..], skipCreated);
        TreeWalkCreates(data, known, created, queue[1..], skipCreated);
        forall i | 0 < i < |queue|
          ensures queue[i] in r
        {
          assert queue[i] == queue[1..][i - 1];
        }
      } else if t in data && t !in known && t !in created {
        var next := queue[1..] + NonBuiltinTypes(data[t]);
        PendingCreate(data, created, queue);
        TreeWalkCloses(data, known, created + {t}, next, skipCreated);
        TreeWalkCreates(data, known, created + {t}, next, skipCreated);
        forall i | 0 < i < |queue|
          ensures queue[i] in r
        {
          assert queue[i] == next[i - 1];
        }
      }
    }
  }

  /**
   * What a walk creates stays inside any set that holds the types created and
   * queued and is closed under field references.
   */
  lemma {:induction false} TreeWalkWithin(data: map<string, seq<Decl>>, known: set<string>, created: set<string>,
                                          queue: seq<string>, skipCreated: bool, s: set<string>)
    requires RefersWithin(data, s) && created <= s
    requires forall i :: 0 <= i < |queue| ==> queue[i] in s
    ensures TreeWalk(data, known, created, queue, skipCreated).0 <= s
    decreases data.Keys - created, |queue|
  {
    if queue != [] {
      var t := queue[0];
      if skipCreated && t in created {
        forall i | 0 <= i < |queue| - 1
          ensures queue[1..][i] in s
        {
          assert queue[1..][i] == queue[i + 1];
        }
        TreeWalkWithin(data, known, created, queue[1..], skipCreated, s);
      } else if t in data && t !in known && t !in created {
        var next := queue[1..] + NonBuiltinTypes(data[t]);
        forall i | 0 <= i < |next|
          ensures next[i] in s
        {
          if i < |queue| - 1 {
            assert next[i] == queue[i + 1];
          } else {
            assert next[i] in NonBuiltinTypes(data[t]);
          }
        }
        TreeWalkWithin(data, known, created + {t}, next, skipCreated, s);
      }
    }
  }

  /**
   * `make_custom_tree` creates exactly the types reachable from the one asked
   * for, with or without passing over types already created: the created set
   * lies inside every set that holds that type and is closed under field
   * references, and, when the walk does not raise, is itself such a set.
   */
  lemma TreeWalkReachable(data: map<string, seq<Decl>>, known: set<string>, t: string, skipCreated: bool)
    ensures forall s :: t in s && RefersWithin(data, s) ==> TreeWalk(data, known, {}, [t], skipCreated).0 <= s
    ensures TreeWalk(data, known, {}, [t], skipCreated).1 == None ==>
      t in TreeWalk(data, known, {}, [t], skipCreated).0 && RefersWithin(data, TreeWalk(data, known, {}, [t], skipCreated).0)
  {
    forall s | t in s && RefersWithin(data, s)
      ensures TreeWalk(data, known, {}, [t], skipCreated).0 <= s
    {
      TreeWalkWithin(data, known, {}, [t], skipCreated, s);
    }
    if TreeWalk(data, known, {}, [t], skipCreated).1 == None {
      TreeWalkCloses(data, known, {}, [t], skipCreated);
    }
  }

  /**
   * The corrected walk, in a group holding none of the types of a table that
   * declares every type it refers to, never raises: a type reached again is
   * passed over.
   */
  lemma {:induction false} CorrectedWalkSucceeds(data: map<string, seq<Decl>>, created: set<string>, queue: seq<string>)
    requires Closed(data) && created <= data.Keys
    requires forall i :: 0 <= i < |queue| ==> queue[i] in data
    ensures TreeWalk(data, {}, created, queue, true).1 == None
    decreases data.Keys - created, |queue|
  {
    if queue != [] {
      var t := queue[0];
      if t in created {
        CorrectedWalkSucceeds(data, created, queue[1..]);
      } else {
        var next := queue[1..] + NonBuiltinTypes(data[t]);
        forall i | 0 <= i < |next|
          ensures next[i] in data
        {
          if i >= |queue| - 1 {
            assert next[i] in NonBuiltinTypes(data[t]);
          } else {
            assert next[i] == queue[i + 1];
          }
        }
        CorrectedWalkSucceeds(data, created + {t}, next);
      }
    }
  }

  // ---------------------------------------------------------------------------
  // Back-filling
  // ---------------------------------------------------------------------------

  function Names(fs: seq<Gen>): (r: set<string>)
    ensures forall i :: 0 <= i < |fs| ==> fs[i].info.fieldName in r
    ensures forall n :: n in r ==> exists i :: 0 <= i < |fs| && fs[i].info.fieldName == n
  {
    if fs == [] then {} else {fs[0].info.fieldName} + Names(fs[1..])
  }

  /** `if not field_name in strategy.fields: strategy.fields[field_name] = field_strategy`. */
  function AddIfAbsent(fs: seq<Gen>, d: Gen): seq<Gen>
  {
    if d.info.fieldName in Names(fs) then fs else fs + [d]
  }

  /** The fields of a custom tree after back-filling from the default fields `ds`, taken in order. */
  function Backfill(own: seq<Gen>, ds: seq<Gen>): seq<Gen>
  {
    if ds == [] then own else AddIfAbsent(Backfill(own, ds[..|ds| - 1]), ds[|ds| - 1])
  }

  lemma NamesAppend(fs: seq<Gen>, d: Gen)
    ensures Names(fs + [d]) == Names(fs) + {d.info.fieldName}
  {
    var r := Names(fs + [d]);
    assert (fs + [d])[|fs|] == d;
    forall n | n in r
      ensures n in Names(fs) + {d.info.fieldName}
    {
      var i :| 0 <= i < |fs + [d]| && (fs + [d])[i].info.fieldName == n;
      if i < |fs| { assert (fs + [d])[i] == fs[i]; }
    }
    forall i | 0 <= i < |fs|
      ensures fs[i].info.fieldName in r
    {
      assert (fs + [d])[i] == fs[i];
    }
  }

  /** Back-filling gives the union of the tree's own field names and the default's. */
  lemma {:induction false} BackfillNames(own: seq<Gen>, ds: seq<Gen>)
    ensures Names(Backfill(own, ds)) == Names(own) + Names(ds)
    decreases |ds|
  {
    if ds != [] {
      var init, d := ds[..|ds| - 1], ds[|ds| - 1];
      assert ds == init + [d];
      NamesAppend(init, d);
      BackfillNames(own, init);
      var b := Backfill(own, init);
      if d.info.fieldName !in Names(b) {
        NamesAppend(b, d);
      }
    }
  }

  /** The tree's own fields stay as they were, first and in order; every field added is a default one. */
  lemma {:induction false} BackfillKeepsOwn(own: seq<Gen>, ds: seq<Gen>)
    ensures |own| <= |Backfill(own, ds)| && Backfill(own, ds)[..|own|] == own
    ensures forall i :: |own| <= i < |Backfill(own, ds)| ==> Backfill(own, ds)[i] in ds
    decreases |ds|
  {
    if ds != [] {
      var init, d := ds[..|ds| - 1], ds[|ds| - 1];
      BackfillKeepsOwn(own, init);
      var b := Backfill(own, init);
      if d.info.fieldName !in Names(b) {
        assert (b + [d])[..|own|] == b[..|own|];
        forall i | |own| <= i < |b + [d]|
          ensures (b + [d])[i] in ds
        {
          if i < |b| {
            assert (b + [d])[i] == b[i];
            assert b[i] in init;
          }
        }
      }
    }
  }

  /** No default field before `ds[i]` has its name. */
  predicate FirstOfName(ds: seq<Gen>, i: int)
    requires 0 <= i < |ds|
  {
    forall j :: 0 <= j < i ==> ds[j].info.fieldName != ds[i].info.fieldName
  }

  /** Every default field whose name the tree lacks, and which is the first default of that name, is added. */
  lemma {:induction false} BackfillAddsMissing(own: seq<Gen>, ds: seq<Gen>)
    ensures forall i :: 0 <= i < |ds| && ds[i].info.fieldName !in Names(own) && FirstOfName(ds, i) ==>
      ds[i] in Backfill(own, ds)
    decreases |ds|
  {
    if ds != [] {
      var init, d := ds[..|ds| - 1], ds[|ds| - 1];
      BackfillAddsMissing(own, init);
      BackfillKeepsOwn(own, init);
      var b := Backfill(own, init);
      forall i | 0 <= i < |ds| && ds[i].info.fieldName !in Names(own) && FirstOfName(ds, i)
        ensures ds[i] in Backfill(own, ds)
      {
        if i < |init| {
          assert ds[i] == init[i];
          assert FirstOfName(init, i);
          assert ds[i] in b;
        } else {
          assert i == |init| && ds[i] == d;
          BackfillNames(own, init);
          forall j | 0 <= j < |init|
            ensures init[j].info.fieldName != d.info.fieldName
          {
            assert ds[j] == init[j];
          }
          assert d.info.fieldName !in Names(init);
          assert d.info.fieldName !in Names(b);
          assert Backfill(own, ds) == AddIfAbsent(b, d);
        }
      }
    }
  }

  /** Back-filling from fields whose names are all present changes nothing. */
  lemma {:induction false} BackfillPresent(own: seq<Gen>, ds: seq<Gen>)
    requires Names(ds) <= Names(own)
    ensures Backfill(own, ds) == own
    decreases |ds|
  {
    if ds != [] {
      var init, d := ds[..|ds| - 1], ds[|ds| - 1];
      assert ds == init + [d];
      NamesAppend(init, d);
      assert Names(init) <= Names(own) && d.info.fieldName in Names(own);
      BackfillPresent(own, init);
      assert Backfill(own, ds) == AddIfAbsent(own, d);
    }
  }

  /** Back-filling twice from the same defaults is back-filling once. */
  lemma BackfillIdempotent(own: seq<Gen>, ds: seq<Gen>)
    ensures Backfill(Backfill(own, ds), ds) == Backfill(own, ds)
  {
    BackfillNames(own, ds);
    BackfillPresent(Backfill(own, ds), ds);
  }

  // ---------------------------------------------------------------------------
  // The registry
  // ---------------------------------------------------------------------------

  /**
   * The defaults once the message types in `made` have their default trees:
   * the built-in strategies, each replaced by the default tree of a message
   * type of the same name.
   */
  function DefaultsUpTo(data: map<string, seq<Decl>>, made: set<string>): map<string, TopLevel>
    requires made <= data.Keys
  {
    map t | t in BuiltinKeys + made :: if t in made then DefaultOf(data, t) else BuiltinStrategy(t)
  }

  /** `_make_builtins` alone: no message type has its default tree yet. */
  lemma DefaultsUpToStart(data: map<string, seq<Decl>>)
    ensures Builtins() == DefaultsUpTo(data, {})
  {
  }

  /** One iteration of `_make_defaults`: the type's default tree is filed under its name. */
  lemma DefaultsUpToStep(data: map<string, seq<Decl>>, made: set<string>, t: string)
    requires made <= data.Keys && t in data
    ensures DefaultsUpTo(data, made)[t := DefaultOf(data, t)] == DefaultsUpTo(data, made + {t})
  {
  }

  /** The defaults of a table: every message type's default tree over the built-in strategies. */
  function Defaults(data: map<string, seq<Decl>>): map<string, TopLevel>
  {
    DefaultsUpTo(data, data.Keys)
  }

  /**
   * Every built-in type and every message type has a default: the message
   * type's default tree whenever there is one, the built-in strategy
   * otherwise.
   */
  lemma DefaultsAt(data: map<string, seq<Decl>>)
    ensures forall t :: t in Defaults(data) <==> t in data || t in BuiltinKeys
    ensures forall t :: t in data ==> Defaults(data)[t] == DefaultTree(t, RosTypeToName(t), DefaultFields(data[t]))
    ensures forall t :: t in BuiltinKeys && t !in data ==> Defaults(data)[t] == BuiltinStrategy(t)
  {
  }

  lemma UpdateTwice<K, V>(m: map<K, V>, k: K, v: V, w: V)
    ensures m[k := v][k := w] == m[k := w]
  {
  }

  /** The default tree of one message type. */
  lemma DefaultAt(data: map<string, seq<Decl>>, t: string)
    requires t in data
    ensures t in Defaults(data) && Defaults(data)[t] == DefaultOf(data, t)
  {
  }

  lemma MergeUpdate<K, V>(m: map<K, V>, n: map<K, V>, k: K, v: V)
    requires k !in m
    ensures (m + n)[k := v] == m + n[k := v]
  {
  }

  /** The strategies held in a map of groups. */
  ghost function Objects(custom: map<string, map<string, MsgStrategy>>): set<MsgStrategy>
  {
    set g, t | g in custom && t in custom[g] :: custom[g][t]
  }

  lemma ObjectsEmpty()
    ensures Objects(map[]) == {}
  {
  }

  /** Making sure a group exists adds no strategy. */
  lemma ObjectsWithGroup(custom: map<string, map<string, MsgStrategy>>, group: string)
    ensures Objects(custom[group := GroupOf(custom, group)]) == Objects(custom)
  {
    var c := custom[group := GroupOf(custom, group)];
    forall x | x in Objects(c)
      ensures x in Objects(custom)
    {
      var g, t :| g in c && t in c[g] && c[g][t] == x;
      assert custom[g][t] == x;
    }
    forall x | x in Objects(custom)
      ensures x in Objects(c)
    {
      var g, t :| g in custom && t in custom[g] && custom[g][t] == x;
      assert c[g][t] == x;
    }
  }

  /** Adding a strategy under a new type of a group adds exactly that strategy. */
  lemma ObjectsWithStrategy(custom: map<string, map<string, MsgStrategy>>, group: string, t: string, s: MsgStrategy)
    requires group in custom && t !in custom[group]
    ensures Objects(custom[group := custom[group][t := s]]) == Objects(custom) + {s}
  {
    var c := custom[group := custom[group][t := s]];
    forall x | x in Objects(c)
      ensures x in Objects(custom) + {s}
    {
      var g, u :| g in c && u in c[g] && c[g][u] == x;
      if g != group || u != t {
        assert custom[g][u] == x;
      }
    }
    forall x | x in Objects(custom)
      ensures x in Objects(c)
    {
      var g, u :| g in custom && u in custom[g] && custom[g][u] == x;
      assert c[g][u] == x;
    }
    assert c[group][t] == s;
  }

  /** Growing a group by strategies under types it does not hold adds exactly those strategies. */
  lemma ObjectsWithStrategies(custom: map<string, map<string, MsgStrategy>>, group: string,
                              made: map<string, MsgStrategy>)
    requires group in custom && made.Keys !! custom[group].Keys
    ensures Objects(custom[group := custom[group] + made]) == Objects(custom) + made.Values
  {
    var c := custom[group := custom[group] + made];
    forall x | x in Objects(c)
      ensures x in Objects(custom) + made.Values
    {
      var g, u :| g in c && u in c[g] && c[g][u] == x;
      if g != group || u !in made {
        assert custom[g][u] == x;
      }
    }
    forall x | x in Objects(custom)
      ensures x in Objects(c)
    {
      var g, u :| g in custom && u in custom[g] && custom[g][u] == x;
      assert c[g][u] == x;
    }
    forall x | x in made.Values
      ensures x in Objects(c)
    {
      var u :| u in made && made[u] == x;
      assert c[group][u] == x;
    }
  }

  /** Each strategy of `made` is one for its type, named after the group and the type. */
  predicate Named(group: string, made: map<string, MsgStrategy>)
  {
    forall t :: t in made ==> made[t].msgType == t && made[t].name == CustomName(group, t)
  }

  lemma NamedAdd(group: string, made: map<string, MsgStrategy>, t: string, s: MsgStrategy)
    requires Named(group, made) && s.msgType == t && s.name == CustomName(group, t)
    ensures Named(group, made[t := s]) && made[t := s].Values <= made.Values + {s}
  {
  }

  /**
   * The loop of `make_custom_tree` on the group's dictionary `grp0` (the
   * registry's entry for the group, which the caller files back): take the
   * type at the head of the queue, create its strategy and enqueue its
   * non-built-in field types, until the queue is empty or a type is not in
   * the table or already in the group (with `skipCreated`, a type this loop
   * created is passed over). The strategies created are `made`, as `TreeWalk`
   * describes, and the error that stopped the loop is `err`.
   */
  method GrowGroup(data: map<string, seq<Decl>>, group: string, grp0: map<string, MsgStrategy>, queue0: seq<string>,
                   skipCreated: bool)
    returns (grp: map<string, MsgStrategy>, err: Option<Error>, ghost made: map<string, MsgStrategy>)
    ensures var walk := TreeWalk(data, grp0.Keys, {}, queue0, skipCreated);
      made.Keys == walk.0 && err == walk.1
    ensures Grown(data, group, grp0, grp, made.Keys, made) && Empty(made)
    ensures forall t :: t in made ==> fresh(made[t])
  {
    ghost var walk := TreeWalk(data, grp0.Keys, {}, queue0, skipCreated);
    made := map[];
    grp := grp0;
    var seen: set<string> := {};
    assert grp0 + made == grp0;
    var queue := queue0;
    err := None;
    while queue != []
      invariant Grown(data, group, grp0, grp, seen, made) && Empty(made)
      invariant forall u :: u in made ==> fresh(made[u])
      invariant walk == TreeWalk(data, grp0.Keys, seen, queue, skipCreated)
      decreases data.Keys - seen, |queue|
    {
      var t := queue[0];
      if skipCreated && t in seen {
        TreeWalkSkip(data, grp0.Keys, seen, queue);
        queue := queue[1..];
      } else {
        if t !in data || t in grp {
          TreeWalkStop(data, grp0.Keys, seen, queue, skipCreated);
          err := Some(ValueError);
          break;
        }
        TreeWalkFirst(data, grp0.Keys, seen, queue, skipCreated);
        queue := queue[1..] + NonBuiltinTypes(data[t]);
        var s;
        s, grp, seen, made := Create(data, group, grp0, t, grp, seen, made);
      }
    }
  }

  /** The bookkeeping of the loop of `make_custom_tree`: the group `grp` is `before` with the new strategies `made`. */
  predicate Grown(data: map<string, seq<Decl>>, group: string, before: map<string, MsgStrategy>,
                  grp: map<string, MsgStrategy>, seen: set<string>, made: map<string, MsgStrategy>)
  {
    grp == before + made && seen == made.Keys && made.Keys !! before.Keys && made.Keys <= data.Keys &&
    Named(group, made)
  }

  /** One creation of the loop of `make_custom_tree`: a new strategy for `t`, filed in the group. */
  method Create(data: map<string, seq<Decl>>, group: string, ghost before: map<string, MsgStrategy>, t: string,
                grp: map<string, MsgStrategy>, seen: set<string>, ghost made: map<string, MsgStrategy>)
    returns (s: MsgStrategy, grp': map<string, MsgStrategy>, seen': set<string>, ghost made': map<string, MsgStrategy>)
    requires Grown(data, group, before, grp, seen, made) && Empty(made) && t in data && t !in grp
    ensures Grown(data, group, before, grp', seen', made') && Empty(made') && seen' == seen + {t} && t !in seen
    ensures fresh(s) && made' == made[t := s]
  {
    s := NewStrategy(group, t, made);
    MergeUpdate(before, made, t, s);
    grp' := grp[t := s];
    made' := made[t := s];
    seen' := seen + {t};
  }

  /** No strategy of `made` has a field yet. */
  ghost predicate Empty(made: map<string, MsgStrategy>)
    reads made.Values
  {
    forall t :: t in made ==> made[t].fields == []
  }

  /** `MsgStrategy(t, name=...)` in the loop of `make_custom_tree`, added to the strategies `made` so far. */
  method NewStrategy(group: string, t: string, ghost made: map<string, MsgStrategy>) returns (s: MsgStrategy)
    requires Named(group, made) && Empty(made)
    ensures fresh(s) && s.msgType == t && s.name == CustomName(group, t) && s.fields == []
    ensures Named(group, made[t := s]) && Empty(made[t := s])
  {
    NamedStrategyHasName(group, t);
    s := new MsgStrategy(t, CustomName(group, t));
    NamedAdd(group, made, t, s);
  }

  class StrategyMap {
    /** `msg_data`: each message type's declared fields. */
    const msgData: map<string, seq<Decl>>
    /** `defaults`: the built-in strategies, then a default tree per message type. */
    const defaults: map<string, TopLevel>
    /** `custom`: group, then message type, to a custom strategy. */
    var custom: map<string, map<string, MsgStrategy>>
    /** The custom strategies. */
    ghost var Repr: set<MsgStrategy>

    /** The defaults are those of the table (both are fixed once the registry is made). */
    predicate DefaultsMade()
    {
      defaults == Defaults(msgData)
    }

    /** Every custom strategy is filed under its own type, which the table declares. */
    ghost predicate Valid()
      reads this
    {
      (forall g, t :: g in custom && t in custom[g] ==> t in msgData && custom[g][t].msgType == t) &&
      Repr == Objects(custom) &&
      (forall s :: s in Repr ==> s.msgType in msgData)
    }

    /**
     * `StrategyMap(msg_data)`: the built-in strategies, then a default tree per
     * message type (replacing a built-in entry of the same name), and no
     * custom strategies.
     */
    constructor (msgData: map<string, seq<Decl>>)
      ensures Valid() && DefaultsMade()
      ensures this.msgData == msgData && custom == map[]
    {
      var d := Builtins();
      DefaultsUpToStart(msgData);
      var todo := msgData.Keys;
      while todo != {}
        invariant todo <= msgData.Keys
        invariant d == DefaultsUpTo(msgData, msgData.Keys - todo)
        decreases todo
      {
        var t :| t in todo;
        DefaultsUpToStep(msgData, msgData.Keys - todo, t);
        d := d[t := DefaultOf(msgData, t)];
        assert msgData.Keys - (todo - {t}) == (msgData.Keys - todo) + {t};
        todo := todo - {t};
      }
      assert msgData.Keys - todo == msgData.Keys;
      this.msgData := msgData;
      defaults := d;
      custom := map[];
      Repr := {};
      ObjectsEmpty();
    }

    /** `get_custom`: KeyError when the group or the type is missing. */
    function GetCustom(group: string, msgType: string): (r: Result<MsgStrategy>)
      reads this
      ensures r.Ok? <==> group in custom && msgType in custom[group]
      ensures r.Err? ==> r.error == KeyError
      ensures r.Ok? ==> r.value == custom[group][msgType]
    {
      if group in custom && msgType in custom[group] then Ok(custom[group][msgType]) else Err(KeyError)
    }

    /** `custom.get(group)`, replaced by a new empty group when it is missing or empty. */
    method OpenGroup(group: string)
      requires Valid()
      modifies this
      ensures Valid() && group in custom
      ensures custom == old(custom)[group := GroupOf(old(custom), group)] && Repr == old(Repr)
    {
      ObjectsWithGroup(custom, group);
      custom := custom[group := GroupOf(custom, group)];
    }

    /** A new strategy for a type of the table the group does not hold, named after the group and the type. */
    method AddStrategy(group: string, msgType: string) returns (s: MsgStrategy)
      requires Valid() && group in custom && msgType in msgData && msgType !in custom[group]
      modifies this
      ensures Valid()
      ensures fresh(s) && s.msgType == msgType && s.name == CustomName(group, msgType) && s.fields == []
      ensures custom == old(custom)[group := old(custom)[group][msgType := s]] && Repr == old(Repr) + {s}
    {
      NamedStrategyHasName(group, msgType);
      s := new MsgStrategy(msgType, CustomName(group, msgType));
      ObjectsWithStrategy(custom, group, msgType, s);
      custom := custom[group := custom[group][msgType := s]];
      Repr := Repr + {s};
    }

    /**
     * `make_custom`: the group is created (empty) before anything is checked;
     * ValueError for a type not in the table or already in the group;
     * otherwise exactly one new strategy, named after the group and the type,
     * with no fields.
     */
    method MakeCustom(group: string, msgType: string) returns (r: Result<MsgStrategy>)
      requires Valid()
      modifies this
      ensures Valid()
      ensures var before := GroupOf(old(custom), group);
        (msgType !in msgData || msgType in before ==>
           r == Err(ValueError) && custom == old(custom)[group := before]) &&
        (msgType in msgData && msgType !in before ==>
           r.Ok? && fresh(r.value) && r.value.msgType == msgType && r.value.name == CustomName(group, msgType) &&
           r.value.fields == [] && custom == old(custom)[group := before[msgType := r.value]])
      ensures Repr == old(Repr) + (if r.Ok? then {r.value} else {})
    {
      OpenGroup(group);
      if msgType !in msgData || msgType in custom[group] {
        return Err(ValueError);
      }
      var s := AddStrategy(group, msgType);
      r := Ok(s);
    }

    /**
     * `make_custom_tree` as written: a breadth-first walk from the type over
     * the non-built-in field types, creating a strategy for each type reached,
     * as `TreeWalk` describes; a type reached a second time raises ValueError.
     * The types created before an error stay in the group. On success the
     * strategy of the type itself is returned.
     */
    method MakeCustomTreeAsWritten(group: string, msgType: string)
      returns (r: Result<MsgStrategy>, ghost made: map<string, MsgStrategy>)
      requires Valid()
      modifies this
      ensures Valid()
      ensures var before := GroupOf(old(custom), group);
        var walk := TreeWalk(msgData, before.Keys, {}, [msgType], false);
        made.Keys == walk.0 && made.Keys !! before.Keys &&
        custom == old(custom)[group := before + made] &&
        Named(group, made) && Empty(made) && (forall t :: t in made ==> fresh(made[t])) &&
        (walk.1.Some? ==> r == Err(walk.1.value)) &&
        (walk.1.None? ==> msgType in made && r == Ok(made[msgType]))
    {
      OpenGroup(group);
      ghost var before := custom[group];
      var grp, err;
      grp, err, made := GrowGroup(msgData, group, custom[group], [msgType], false);
      SetGroup(group, grp, made);
      UpdateTwice(old(custom), group, before, before + made);
      if err.Some? {
        return Err(err.value), made;
      }
      TreeWalkHead(msgData, before.Keys, msgType, false);
      assert custom[group] == before + made;
      r := Ok(custom[group][msgType]);
    }

    /** `make_custom_tree` passing over the types the walk has already created. */
    method MakeCustomTree(group: string, msgType: string)
      returns (r: Result<MsgStrategy>, ghost made: map<string, MsgStrategy>)
      requires Valid()
      modifies this
      ensures Valid()
      ensures var before := GroupOf(old(custom), group);
        var walk := TreeWalk(msgData, before.Keys, {}, [msgType], true);
        made.Keys == walk.0 && made.Keys !! before.Keys &&
        custom == old(custom)[group := before + made] &&
        Named(group, made) && Empty(made) && (forall t :: t in made ==> fresh(made[t])) &&
        (walk.1.Some? ==> r == Err(walk.1.value)) &&
        (walk.1.None? ==> msgType in made && r == Ok(made[msgType]))
    {
      OpenGroup(group);
      ghost var before := custom[group];
      var grp, err;
      grp, err, made := GrowGroup(msgData, group, custom[group], [msgType], true);
      SetGroup(group, grp, made);
      UpdateTwice(old(custom), group, before, before + made);
      if err.Some? {
        return Err(err.value), made;
      }
      TreeWalkHead(msgData, before.Keys, msgType, true);
      assert custom[group] == before + made;
      r := Ok(custom[group][msgType]);
    }

    /** Files the grown dictionary of a group, which adds the strategies `made` and no other. */
    method SetGroup(group: string, grp: map<string, MsgStrategy>, ghost made: map<string, MsgStrategy>)
      requires Valid() && group in custom && made.Keys !! custom[group].Keys && grp == custom[group] + made
      requires made.Keys <= msgData.Keys && Named(group, made) && Empty(made)
      modifies this
      ensures Valid() && custom == old(custom)[group := grp] && Repr == old(Repr) + made.Values && Empty(made)
    {
      ObjectsWithStrategies(custom, group, made);
      custom := custom[group := grp];
      Repr := Repr + made.Values;
    }

    /**
     * `complete_custom_strategies`: each custom strategy (group by group, type
     * by type) is back-filled from the default tree of its type.
     */
    method CompleteCustomStrategies()
      requires Valid() && DefaultsMade()
      modifies Repr
      ensures Valid()
      ensures forall g, t :: g in custom && t in custom[g] ==>
        custom[g][t].fields == Backfill(old(custom[g][t].fields), DefaultFields(msgData[t]))
    {
      ghost var orig := map s | s in Repr :: s.fields;
      ghost var filled: set<MsgStrategy> := {};
      TreesMadeOf();
      var groups := custom.Keys;
      while groups != {}
        invariant groups <= custom.Keys && filled <= Repr
        invariant forall g, t :: g in custom.Keys - groups && t in custom[g] ==> custom[g][t] in filled
        invariant forall s :: s in Repr ==>
          s.fields == if s in filled then Backfill(orig[s], defaults[s.msgType].fields) else orig[s]
        decreases groups
      {
        var g :| g in groups;
        filled := CompleteGroup(g, orig, filled);
        groups := groups - {g};
      }
      forall g, t | g in custom && t in custom[g]
        ensures custom[g][t].fields == Backfill(old(custom[g][t].fields), DefaultFields(msgData[t]))
      {
        assert custom[g][t] in Objects(custom);
        DefaultAt(msgData, t);
      }
    }

    /** Every message type of the table has a default tree. */
    predicate TreesMade()
    {
      forall t :: t in msgData ==> t in defaults && defaults[t].DefaultTree?
    }

    lemma TreesMadeOf()
      requires DefaultsMade()
      ensures TreesMade()
    {
      forall t | t in msgData
        ensures t in defaults && defaults[t].DefaultTree?
      {
        DefaultAt(msgData, t);
      }
    }

    /** The loop of `complete_custom_strategies` over the strategies of one group. */
    method CompleteGroup(g: string, ghost orig: map<MsgStrategy, seq<Gen>>, ghost filled0: set<MsgStrategy>)
      returns (ghost filled: set<MsgStrategy>)
      requires Valid() && TreesMade() && g in custom && filled0 <= Repr && Repr <= orig.Keys
      requires forall s :: s in Repr ==>
        s.fields == if s in filled0 then Backfill(orig[s], defaults[s.msgType].fields) else orig[s]
      modifies Repr
      ensures filled0 <= filled <= Repr && forall t :: t in custom[g] ==> custom[g][t] in filled
      ensures forall s :: s in Repr ==>
        s.fields == if s in filled then Backfill(orig[s], defaults[s.msgType].fields) else orig[s]
    {
      filled := filled0;
      var types := custom[g].Keys;
      while types != {}
        invariant Valid() && types <= custom[g].Keys
        invariant filled0 <= filled <= Repr && forall t :: t in custom[g].Keys - types ==> custom[g][t] in filled
        invariant forall s :: s in Repr ==>
          s.fields == if s in filled then Backfill(orig[s], defaults[s.msgType].fields) else orig[s]
        decreases types
      {
        var t :| t in types;
        var s := custom[g][t];
        assert Valid() && t in msgData;
        assert s.msgType == t && s in Objects(custom);
        ghost var goal := Backfill(orig[s], defaults[t].fields);
        if s in filled {
          BackfillIdempotent(orig[s], defaults[t].fields);
        }
        assert Backfill(s.fields, defaults[t].fields) == goal;
        label before:
        Fill(s, defaults[t].fields);
        forall x | x in Repr
          ensures x.fields == if x in filled + {s} then Backfill(orig[x], defaults[x.msgType].fields) else orig[x]
        {
          if x != s {
            assert x.fields == old@before(x.fields);
          }
        }
        filled := filled + {s};
        types := types - {t};
      }
    }
  }

  /** The inner loop of `complete_custom_strategies`: add each default field the strategy lacks. */
  method Fill(s: MsgStrategy, ds: seq<Gen>)
    modifies s
    ensures s.fields == Backfill(old(s.fields), ds)
  {
    var i := 0;
    while i < |ds|
      invariant 0 <= i <= |ds|
      invariant s.fields == Backfill(old(s.fields), ds[..i])
    {
      assert ds[..i + 1][..i] == ds[..i];
      if !(ds[i].info.fieldName in Names(s.fields)) {
        s.fields := s.fields + [ds[i]];
      }
      i := i + 1;
    }
    assert ds[..|ds|] == ds;
  }

  /** A custom strategy is created with its group-and-type name, never the default one. */
  lemma NamedStrategyHasName(group: string, msgType: string)
    ensures StrategyName(msgType, CustomName(group, msgType)) == CustomName(group, msgType)
  {
    assert |CustomName(group, msgType)| >= 1;
  }
}
