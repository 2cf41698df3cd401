/**
 * The resolution driver of a message strategy (`_init_fields`): render the
 * queued nodes round by round; a node whose references are not yet rendered
 * raises ResolutionError and waits for the next round; a rendered node's
 * children join the queue behind it; a round that renders nothing means the
 * remaining nodes depend on each other, and the driver raises
 * CyclicDependencyError. Any other error ends the run.
 *
 * The driver is generic in the node type: `attempt(x, done)` renders `x`
 * given the nodes rendered so far and yields its line and the node as it is
 * afterwards; `children` are what a rendered node enqueues; `size` is a
 * measure that the children of a rendered node together stay below.
 */
module Resolution {
  import opened Base

  function SumOf<N>(size: N -> nat, s: seq<N>): nat
  {
    if s == [] then 0 else size(s[0]) + SumOf(size, s[1..])
  }

  lemma {:induction false} SumOfAppend<N>(size: N -> nat, a: seq<N>, b: seq<N>)
    ensures SumOf(size, a + b) == SumOf(size, a) + SumOf(size, b)
  {
    if a == [] {
      assert a + b == b;
    } else {
      assert (a + b)[1..] == a[1..] + b;
      SumOfAppend(size, a[1..], b);
    }
  }

  /** Everything the rendered nodes `done` have enqueued, with multiplicity. */
  ghost function Spawned<N>(children: N -> seq<N>, done: seq<N>): multiset<N>
  {
    if done == [] then multiset{}
    else Spawned(children, done[..|done| - 1]) + multiset(children(done[|done| - 1]))
  }

  predicate Unresolved<T>(r: Result<T>)
  {
    r.Err? && r.error.ResolutionError?
  }

  /** `x` is one of the roots, or a child of one of the first `upto` rendered nodes. */
  predicate Queued<N(==)>(x: N, roots: seq<N>, children: N -> seq<N>, done: seq<N>, upto: nat)
  {
    x in roots || exists j :: 0 <= j < upto && j < |done| && x in children(done[j])
  }

  /** The measure of the queue does not grow when a rendered node is replaced by its children. */
  lemma SuccessShrinks<N>(size: N -> nat, q: seq<N>, j: nat, newQueue: seq<N>, kids: seq<N>)
    requires j < |q|
    requires SumOf(size, kids) < size(q[j])
    ensures SumOf(size, newQueue + kids) + SumOf(size, q[j + 1..]) + 1 <= SumOf(size, newQueue) + SumOf(size, q[j..])
  {
    SumOfAppend(size, newQueue, kids);
    assert q[j..][1..] == q[j + 1..];
  }

  /** A node waiting for the next round keeps the measure of the queue. */
  lemma RequeueKeeps<N>(size: N -> nat, q: seq<N>, j: nat, newQueue: seq<N>)
    requires j < |q|
    ensures SumOf(size, newQueue + [q[j]]) + SumOf(size, q[j + 1..]) == SumOf(size, newQueue) + SumOf(size, q[j..])
  {
    SumOfAppend(size, newQueue, [q[j]]);
    assert [q[j]][1..] == [];
    assert q[j..][1..] == q[j + 1..];
  }

  /**
   * What the driver expects of an attempt: a node it renders enqueues less, by
   * the measure, than itself, and CyclicDependencyError is raised by the
   * driver alone.
   */
  ghost predicate Attempts<N(!new)>(children: N -> seq<N>, attempt: (N, seq<N>) -> Result<(string, N)>, size: N -> nat)
  {
    forall x, d :: attempt(x, d) != Err(CyclicDependencyError) &&
      (attempt(x, d).Ok? ==> SumOf(size, children(attempt(x, d).value.1)) < size(x))
  }

  /** Adding the same bag to both sides of a balance keeps it. */
  lemma Shift<N>(x: multiset<N>, x': multiset<N>, base: multiset<N>, r: multiset<N>, s: multiset<N>, s': multiset<N>,
                 extra: multiset<N>)
    requires x + base == r + s && x' == x + extra && s' == s + extra
    ensures x' + base == r + s'
  {
    forall e
      ensures (x' + base)[e] == (r + s')[e]
    {
      assert (x + base)[e] == (r + s)[e];
    }
    assert x' + base == r + s';
  }

  /** Two balances chained, the middle term cancelled. */
  lemma Cancel<N>(a: multiset<N>, b: multiset<N>, r: multiset<N>, s0: multiset<N>, s: multiset<N>)
    requires a + s0 == b + s && b == r + s0
    ensures a == r + s
  {
    forall e
      ensures a[e] == (r + s)[e]
    {
      assert (a + s0)[e] == (b + s)[e];
    }
    assert a == r + s;
  }

  /** When the record balances, every root was taken. */
  lemma RootsTaken<N>(roots: seq<N>, taken: seq<N>, spawned: multiset<N>)
    requires multiset(taken) == multiset(roots) + spawned
    ensures forall i :: 0 <= i < |roots| ==> roots[i] in taken
  {
    forall i | 0 <= i < |roots|
      ensures roots[i] in taken
    {
      assert multiset(roots)[roots[i]] > 0;
      assert multiset(taken)[roots[i]] > 0;
    }
  }

  /** Moving a rendered node from the queue to the record, and its children into the next queue. */
  lemma TakeKeeps<N>(taken: seq<N>, q: seq<N>, j: nat, next: seq<N>, kids: seq<N>)
    requires j < |q|
    ensures multiset(taken + [q[j]]) + multiset(q[j + 1..]) + multiset(next + kids)
         == multiset(taken) + multiset(q[j..]) + multiset(next) + multiset(kids)
  {
    assert q[j..] == [q[j]] + q[j + 1..];
  }

  /** Moving a waiting node from this round's queue to the next one. */
  lemma WaitKeeps<N>(taken: seq<N>, q: seq<N>, j: nat, next: seq<N>)
    requires j < |q|
    ensures multiset(taken) + multiset(q[j + 1..]) + multiset(next + [q[j]])
         == multiset(taken) + multiset(q[j..]) + multiset(next)
  {
    assert q[j..] == [q[j]] + q[j + 1..];
  }

  /** What has been rendered so far is consistent: each line and node came from its attempt, in order. */
  ghost predicate Sound<N>(roots: seq<N>, children: N -> seq<N>, attempt: (N, seq<N>) -> Result<(string, N)>,
                               lines: seq<string>, done: seq<N>, taken: seq<N>)
  {
    |lines| == |done| == |taken| &&
    (forall k :: 0 <= k < |done| ==> attempt(taken[k], done[..k]) == Ok((lines[k], done[k]))) &&
    (forall k :: 0 <= k < |taken| ==> Queued(taken[k], roots, children, done, k))
  }

  ghost predicate AllQueued<N>(xs: seq<N>, roots: seq<N>, children: N -> seq<N>, done: seq<N>)
  {
    forall x :: x in xs ==> Queued(x, roots, children, done, |done|)
  }

  /** Rendering one queued node keeps the record consistent and its children count as queued. */
  lemma SuccessStep<N>(roots: seq<N>, children: N -> seq<N>, attempt: (N, seq<N>) -> Result<(string, N)>,
                           lines: seq<string>, done: seq<N>, taken: seq<N>, x: N, line: string, after: N,
                           waiting: seq<N>, rest: seq<N>)
    requires Sound(roots, children, attempt, lines, done, taken)
    requires attempt(x, done) == Ok((line, after)) && Queued(x, roots, children, done, |done|)
    requires AllQueued(waiting, roots, children, done) && AllQueued(rest, roots, children, done)
    ensures Sound(roots, children, attempt, lines + [line], done + [after], taken + [x])
    ensures AllQueued(waiting + children(after), roots, children, done + [after])
    ensures AllQueued(rest, roots, children, done + [after])
    ensures Spawned(children, done + [after]) == Spawned(children, done) + multiset(children(after))
  {
    var done' := done + [after];
    assert done'[..|done|] == done;
    forall k | 0 <= k < |done'|
      ensures attempt((taken + [x])[k], done'[..k]) == Ok(((lines + [line])[k], done'[k]))
    {
      if k < |done| {
        assert done'[..k] == done[..k];
      }
    }
    forall y | Queued(y, roots, children, done, |done|)
      ensures Queued(y, roots, children, done', |done'|)
    {
      if y !in roots {
        var j :| 0 <= j < |done| && j < |done| && y in children(done[j]);
        assert done'[j] == done[j];
      }
    }
    forall k | 0 <= k < |taken| + 1
      ensures Queued((taken + [x])[k], roots, children, done', k)
    {
      if k < |taken| && taken[k] !in roots {
        var j :| 0 <= j < k && j < |done| && taken[k] in children(done[j]);
        assert done'[j] == done[j];
      }
    }
    forall y | y in waiting + children(after)
      ensures Queued(y, roots, children, done', |done'|)
    {
      if y !in waiting {
        assert done'[|done|] == after;
      }
    }
  }

  /** The state part-way through a round, after the first `j` queued nodes were tried. */
  ghost predicate RoundInv<N(!new)>(roots: seq<N>, children: N -> seq<N>, attempt: (N, seq<N>) -> Result<(string, N)>,
                                    size: N -> nat, queue: seq<N>, j: int, done0: seq<N>, taken0: seq<N>,
                                    lines: seq<string>, done: seq<N>, taken: seq<N>, next: seq<N>)
  {
    0 <= j <= |queue| && |done0| <= |done| &&
    Sound(roots, children, attempt, lines, done, taken) &&
    AllQueued(queue[j..], roots, children, done) && AllQueued(next, roots, children, done) &&
    multiset(taken) + multiset(queue[j..]) + multiset(next) + Spawned(children, done0)
      == multiset(taken0) + multiset(queue) + Spawned(children, done) &&
    SumOf(size, next) + SumOf(size, queue[j..]) + (|done| - |done0|) <= SumOf(size, queue) &&
    (|done| == |done0| ==> |next| == j && forall x :: x in next ==> Unresolved(attempt(x, done)))
  }

  /** Trying the `j`-th node successfully: it is recorded and its children join the next queue. */
  lemma AfterSuccess<N(!new)>(roots: seq<N>, children: N -> seq<N>, attempt: (N, seq<N>) -> Result<(string, N)>,
                              size: N -> nat, queue: seq<N>, j: int, done0: seq<N>, taken0: seq<N>,
                              lines: seq<string>, done: seq<N>, taken: seq<N>, next: seq<N>, line: string, after: N)
    requires Attempts(children, attempt, size)
    requires RoundInv(roots, children, attempt, size, queue, j, done0, taken0, lines, done, taken, next)
    requires j < |queue| && attempt(queue[j], done) == Ok((line, after))
    ensures RoundInv(roots, children, attempt, size, queue, j + 1, done0, taken0,
                     lines + [line], done + [after], taken + [queue[j]], next + children(after))
  {
    var x := queue[j];
    assert queue[j..] == [x] + queue[j + 1..];
    assert SumOf(size, children(attempt(x, done).value.1)) < size(x);
    SuccessShrinks(size, queue, j, next, children(after));
    SuccessStep(roots, children, attempt, lines, done, taken, x, line, after, next, queue[j + 1..]);
    TakeKeeps(taken, queue, j, next, children(after));
    Shift(multiset(taken) + multiset(queue[j..]) + multiset(next),
          multiset(taken + [x]) + multiset(queue[j + 1..]) + multiset(next + children(after)),
          Spawned(children, done0), multiset(taken0) + multiset(queue),
          Spawned(children, done), Spawned(children, done + [after]), multiset(children(after)));
  }

  /** Trying the `j`-th node while its references are unrendered: it waits for the next round. */
  lemma AfterWait<N(!new)>(roots: seq<N>, children: N -> seq<N>, attempt: (N, seq<N>) -> Result<(string, N)>,
                           size: N -> nat, queue: seq<N>, j: int, done0: seq<N>, taken0: seq<N>,
                           lines: seq<string>, done: seq<N>, taken: seq<N>, next: seq<N>)
    requires RoundInv(roots, children, attempt, size, queue, j, done0, taken0, lines, done, taken, next)
    requires j < |queue| && Unresolved(attempt(queue[j], done))
    ensures RoundInv(roots, children, attempt, size, queue, j + 1, done0, taken0, lines, done, taken, next + [queue[j]])
  {
    assert queue[j..] == [queue[j]] + queue[j + 1..];
    RequeueKeeps(size, queue, j, next);
    WaitKeeps(taken, queue, j, next);
    forall y | y in next + [queue[j]]
      ensures Queued(y, roots, children, done, |done|)
    {
      if y !in next {
        assert y in queue[j..];
      }
    }
  }

  /** An attempt raising another error ends the round with the untried nodes first, then the next queue. */
  lemma AfterError<N(!new)>(roots: seq<N>, children: N -> seq<N>, attempt: (N, seq<N>) -> Result<(string, N)>,
                            size: N -> nat, queue: seq<N>, j: int, done0: seq<N>, taken0: seq<N>,
                            lines: seq<string>, done: seq<N>, taken: seq<N>, next: seq<N>)
    requires RoundInv(roots, children, attempt, size, queue, j, done0, taken0, lines, done, taken, next)
    requires j < |queue|
    ensures AllQueued(queue[j..] + next, roots, children, done)
    ensures multiset(taken) + multiset(queue[j..] + next) + Spawned(children, done0)
         == multiset(taken0) + multiset(queue) + Spawned(children, done)
    ensures (queue[j..] + next)[0] == queue[j]
  {
  }

  /** Every node tried: the next queue is complete. */
  lemma RoundEnd<N(!new)>(size: N -> nat, queue: seq<N>, done0: seq<N>, taken0: seq<N>,
                          spawned0: multiset<N>, spawned: multiset<N>, done: seq<N>, taken: seq<N>, next: seq<N>)
    requires multiset(taken) + multiset(queue[|queue|..]) + multiset(next) + spawned0
          == multiset(taken0) + multiset(queue) + spawned
    requires SumOf(size, next) + SumOf(size, queue[|queue|..]) + (|done| - |done0|) <= SumOf(size, queue)
    ensures multiset(taken) + multiset(next) + spawned0 == multiset(taken0) + multiset(queue) + spawned
    ensures SumOf(size, next) + (|done| - |done0|) <= SumOf(size, queue)
  {
    var rest := queue[|queue|..];
    assert rest == [];
    assert multiset(rest) == multiset{} && SumOf(size, rest) == 0;
    assert multiset(taken) + multiset(rest) + multiset(next) == multiset(taken) + multiset(next);
  }

  /**
   * One round of `_init_fields`: try every queued node in turn. Unless some
   * attempt raised another error, `next` is the next round's queue (requeued
   * nodes and children, in order), its measure has dropped by at least the
   * number of nodes rendered, and a round that rendered nothing requeued
   * every node, each still waiting on a reference.
   */
  method Round<N(==,!new)>(roots: seq<N>, children: N -> seq<N>, attempt: (N, seq<N>) -> Result<(string, N)>,
                           size: N -> nat, queue: seq<N>, lines0: seq<string>, done0: seq<N>, taken0: seq<N>)
    returns (lines: seq<string>, done: seq<N>, taken: seq<N>, next: seq<N>, err: Option<Error>)
    requires Attempts(children, attempt, size)
    requires Sound(roots, children, attempt, lines0, done0, taken0)
    requires AllQueued(queue, roots, children, done0)
    ensures Sound(roots, children, attempt, lines, done, taken)
    ensures AllQueued(next, roots, children, done)
    ensures multiset(taken) + multiset(next) + Spawned(children, done0)
         == multiset(taken0) + multiset(queue) + Spawned(children, done)
    ensures |done0| <= |done|
    ensures err.None? ==> SumOf(size, next) + (|done| - |done0|) <= SumOf(size, queue)
    ensures err.None? && |done| == |done0| ==> |next| == |queue| && forall x :: x in next ==> Unresolved(attempt(x, done))
    ensures err.Some? ==> !err.value.ResolutionError? && next != [] && attempt(next[0], done) == Err(err.value)
  {
    lines, done, taken, next, err := lines0, done0, taken0, [], None;
    assert queue[0..] == queue;
    var j := 0;
    while j < |queue|
      invariant RoundInv(roots, children, attempt, size, queue, j, done0, taken0, lines, done, taken, next)
    {
      var r := attempt(queue[j], done);
      if r.Ok? {
        AfterSuccess(roots, children, attempt, size, queue, j, done0, taken0, lines, done, taken, next,
                     r.value.0, r.value.1);
        lines, done, taken, next := lines + [r.value.0], done + [r.value.1], taken + [queue[j]], next + children(r.value.1);
      } else if r.error.ResolutionError? {
        AfterWait(roots, children, attempt, size, queue, j, done0, taken0, lines, done, taken, next);
        next := next + [queue[j]];
      } else {
        AfterError(roots, children, attempt, size, queue, j, done0, taken0, lines, done, taken, next);
        next := queue[j..] + next;
        err := Some(r.error);
        return;
      }
      j := j + 1;
    }
    RoundEnd(size, queue, done0, taken0, Spawned(children, done0), Spawned(children, done), done, taken, next);
  }

  /**
   * `_init_fields`. The outcome: `lines[k]` is the line of the `k`-th node
   * rendered, `taken[k]` that node as it was queued and `done[k]` as it is
   * afterwards; each was rendered given exactly the nodes rendered before it,
   * and was a root or a child of a node rendered before it. What was queued
   * and never rendered is `pending`, and nothing is lost or duplicated: the
   * nodes taken and pending are, counted with multiplicity, the roots plus
   * the children of the rendered nodes. The run succeeds exactly when nothing
   * is pending; CyclicDependencyError means every pending node is still
   * waiting on a reference; any other error is the one the first pending node
   * raised.
   */
  method InitFields<N(==,!new)>(roots: seq<N>, children: N -> seq<N>, attempt: (N, seq<N>) -> Result<(string, N)>,
                           size: N -> nat)
    returns (lines: seq<string>, done: seq<N>, taken: seq<N>, pending: seq<N>, err: Option<Error>)
    requires Attempts(children, attempt, size)
    ensures |lines| == |done| == |taken|
    ensures forall k :: 0 <= k < |done| ==> attempt(taken[k], done[..k]) == Ok((lines[k], done[k]))
    ensures forall k :: 0 <= k < |taken| ==> Queued(taken[k], roots, children, done, k)
    ensures forall x :: x in pending ==> Queued(x, roots, children, done, |done|)
    ensures multiset(taken) + multiset(pending) == multiset(roots) + Spawned(children, done)
    ensures err.None? <==> pending == []
    ensures err == Some(CyclicDependencyError) ==> forall x :: x in pending ==> Unresolved(attempt(x, done))
    ensures err.Some? && err != Some(CyclicDependencyError) ==>
      !err.value.ResolutionError? && attempt(pending[0], done) == Err(err.value)
  {
    lines, done, taken, pending, err := [], [], [], [], None;
    var queue := roots;
    while queue != []
      invariant Sound(roots, children, attempt, lines, done, taken)
      invariant AllQueued(queue, roots, children, done)
      invariant multiset(taken) + multiset(queue) == multiset(roots) + Spawned(children, done)
      invariant err.None? && pending == []
      decreases SumOf(size, queue)
    {
      var n := |done|;
      var next;
      ghost var taken0, done0 := taken, done;
      lines, done, taken, next, err := Round(roots, children, attempt, size, queue, lines, done, taken);
      Cancel(multiset(taken) + multiset(next), multiset(taken0) + multiset(queue), multiset(roots),
             Spawned(children, done0), Spawned(children, done));
      if err.Some? {
        pending := next;
        return;
      }
      queue := next;
      if n == |done| {
        pending := queue;
        err := Some(CyclicDependencyError);
        return;
      }
    }
  }
}
