/**
  How a stage summary merges operator statistics across its tasks: every
  operator of every pipeline of every task is visited in order, and its
  statistics are stored under the key `pipelineId.operatorId` if the key is new,
  or combined with what is stored there by `add` if it is not.

  `add` is the operator statistics' own combining operation. Its internals are
  not part of this model, so it is a parameter; only the order-independence
  result assumes anything of it (that it is associative and commutative).
 */
module OperatorMerge {
  import opened Operator
  import opened OperatorIds

  /** The statistics of one operator, with the key it is merged under. */
  datatype OperatorEntry = OperatorEntry(id: string, stats: OperatorStats)

  type OperatorStatsMap = map<string, OperatorStats>

  function EntryOf(p: PipelineStats, k: nat): OperatorEntry
    requires k < |p.operatorSummaries|
  {
    OperatorEntry(OperatorId(p.pipelineId, p.operatorSummaries[k].operatorId), p.operatorSummaries[k])
  }

  /** The entries of one pipeline, in the order of its operator summaries. */
  function PipelineEntries(p: PipelineStats): seq<OperatorEntry> {
    seq(|p.operatorSummaries|, k requires 0 <= k < |p.operatorSummaries| => EntryOf(p, k))
  }

  lemma PipelineEntriesSnoc(p: PipelineStats, k: nat)
    requires k < |p.operatorSummaries|
    ensures PipelineEntries(p)[..k + 1] == PipelineEntries(p)[..k] + [EntryOf(p, k)]
  {
  }

  /** The concatenation of `f(x)` for every `x` of `xs`, in order. */
  function ConcatMap<T, U>(xs: seq<T>, f: T -> seq<U>): seq<U> {
    if xs == [] then [] else ConcatMap(xs[..|xs| - 1], f) + f(xs[|xs| - 1])
  }

  /** The entries of a task's pipelines, pipeline by pipeline. */
  function PipelinesEntries(ps: seq<PipelineStats>): seq<OperatorEntry> {
    ConcatMap(ps, PipelineEntries)
  }

  lemma PipelinesEntriesSnoc(ps: seq<PipelineStats>, q: nat)
    requires q < |ps|
    ensures PipelinesEntries(ps[..q + 1]) == PipelinesEntries(ps[..q]) + PipelineEntries(ps[q])
  {
    assert ps[..q + 1][..q] == ps[..q];
  }

  /** The entries of one task's statistics. */
  function TaskEntries(t: TaskStats): seq<OperatorEntry> {
    PipelinesEntries(t.pipelines)
  }

  /** The entries of a sequence of task statistics, task by task. */
  function OperatorEntries(ts: seq<TaskStats>): seq<OperatorEntry> {
    ConcatMap(ts, TaskEntries)
  }

  /** One step of the merge: insert the entry's statistics, or add them to the stored ones. */
  function Compute(m: OperatorStatsMap, e: OperatorEntry, add: (OperatorStats, OperatorStats) -> OperatorStats): OperatorStatsMap {
    m[e.id := if e.id in m then add(m[e.id], e.stats) else e.stats]
  }

  /**
    One step adds the entry's key and changes nothing under any other key. The
    first statistics seen under a key are stored as they are; later ones are
    added to the stored value, never stored in its place.
   */
  lemma ComputeStep(m: OperatorStatsMap, e: OperatorEntry, add: (OperatorStats, OperatorStats) -> OperatorStats)
    ensures Compute(m, e, add).Keys == m.Keys + {e.id}
    ensures forall id :: id in m && id != e.id ==> Compute(m, e, add)[id] == m[id]
    ensures e.id !in m ==> Compute(m, e, add)[e.id] == e.stats
    ensures e.id in m ==> Compute(m, e, add)[e.id] == add(m[e.id], e.stats)
  {
  }

  /** The merge of `es`, in order, into `m`. */
  function Merge(m: OperatorStatsMap, es: seq<OperatorEntry>, add: (OperatorStats, OperatorStats) -> OperatorStats): OperatorStatsMap {
    if es == [] then m else Compute(Merge(m, es[..|es| - 1], add), es[|es| - 1], add)
  }

  lemma MergeSnoc(m: OperatorStatsMap, es: seq<OperatorEntry>, e: OperatorEntry, add: (OperatorStats, OperatorStats) -> OperatorStats)
    ensures Merge(m, es + [e], add) == Compute(Merge(m, es, add), e, add)
  {
    assert (es + [e])[..|es|] == es;
  }

  /** Merging `a` then `b` is merging their concatenation. */
  lemma {:induction false} MergeAppend(m: OperatorStatsMap, a: seq<OperatorEntry>, b: seq<OperatorEntry>, add: (OperatorStats, OperatorStats) -> OperatorStats)
    ensures Merge(m, a + b, add) == Merge(Merge(m, a, add), b, add)
  {
    if b != [] {
      var b', y := b[..|b| - 1], b[|b| - 1];
      assert a + b == (a + b') + [y];
      assert b == b' + [y];
      MergeSnoc(m, a + b', y, add);
      MergeAppend(m, a, b', add);
      MergeSnoc(Merge(m, a, add), b', y, add);
    } else {
      assert a + b == a;
    }
  }

  /** Merging the first `i + 1` tasks is merging the first `i`, then task `i`'s operators. */
  lemma MergeNextTask(ts: seq<TaskStats>, i: nat, add: (OperatorStats, OperatorStats) -> OperatorStats)
    requires i < |ts|
    ensures Merge(map[], OperatorEntries(ts[..i + 1]), add) ==
      Merge(Merge(map[], OperatorEntries(ts[..i]), add), PipelinesEntries(ts[i].pipelines), add)
  {
    assert ts[..i + 1][..i] == ts[..i];
    MergeAppend(map[], OperatorEntries(ts[..i]), PipelinesEntries(ts[i].pipelines), add);
  }

  // ---------------------------------------------------------------------------
  // What the merged map holds

  /** The keys of `es`. */
  function Ids(es: seq<OperatorEntry>): set<string> {
    if es == [] then {} else Ids(es[..|es| - 1]) + {es[|es| - 1].id}
  }

  /** The statistics stored under `id` in `es`, in order. */
  function StatsWithId(es: seq<OperatorEntry>, id: string): seq<OperatorStats> {
    if es == [] then []
    else StatsWithId(es[..|es| - 1], id) + (if es[|es| - 1].id == id then [es[|es| - 1].stats] else [])
  }

  /** The left fold of `add` over `s`: the first element as it is, each later one added to the running result. */
  function FoldAdd(s: seq<OperatorStats>, add: (OperatorStats, OperatorStats) -> OperatorStats): OperatorStats
    requires s != []
  {
    if |s| == 1 then s[0] else add(FoldAdd(s[..|s| - 1], add), s[|s| - 1])
  }

  lemma {:induction false} IdsMembership(es: seq<OperatorEntry>, id: string)
    ensures id in Ids(es) <==> exists i :: 0 <= i < |es| && es[i].id == id
    ensures id in Ids(es) <==> StatsWithId(es, id) != []
  {
    if es != [] {
      var init := es[..|es| - 1];
      IdsMembership(init, id);
      if id in Ids(init) {
        var i :| 0 <= i < |init| && init[i].id == id;
        assert es[i].id == id;
      }
      if exists i :: 0 <= i < |es| && es[i].id == id {
        var i :| 0 <= i < |es| && es[i].id == id;
        if i < |init| {
          assert init[i].id == id;
        }
      }
    }
  }

  /**
    Merging entries into an empty map gives one entry per key that occurs, and
    under each key the fold of `add` over that key's statistics in order.
   */
  lemma {:induction false} MergeFromEmpty(es: seq<OperatorEntry>, add: (OperatorStats, OperatorStats) -> OperatorStats)
    ensures Merge(map[], es, add).Keys == Ids(es)
    ensures forall id :: id in Ids(es) ==>
      StatsWithId(es, id) != [] && Merge(map[], es, add)[id] == FoldAdd(StatsWithId(es, id), add)
  {
    if es != [] {
      var init, e := es[..|es| - 1], es[|es| - 1];
      MergeFromEmpty(init, add);
      forall id | id in Ids(es)
        ensures StatsWithId(es, id) != [] && Merge(map[], es, add)[id] == FoldAdd(StatsWithId(es, id), add)
      {
        if id != e.id {
          assert id in Ids(init);
          assert StatsWithId(es, id) == StatsWithId(init, id);
          assert Merge(map[], es, add)[id] == Merge(map[], init, add)[id];
        } else {
          IdsMembership(init, id);
          var before := StatsWithId(init, id);
          assert StatsWithId(es, id) == before + [e.stats];
          if before != [] {
            assert (before + [e.stats])[..|before|] == before;
          }
        }
      }
    }
  }

  // ---------------------------------------------------------------------------
  // Where the entries come from

  lemma PipelineEntriesMembership(p: PipelineStats, e: OperatorEntry)
    ensures e in PipelineEntries(p) <==> exists k :: 0 <= k < |p.operatorSummaries| && e == EntryOf(p, k)
  {
    var es := PipelineEntries(p);
    if e in es {
      var k :| 0 <= k < |es| && es[k] == e;
      assert e == EntryOf(p, k);
    }
    if exists k :: 0 <= k < |p.operatorSummaries| && e == EntryOf(p, k) {
      var k :| 0 <= k < |p.operatorSummaries| && e == EntryOf(p, k);
      assert es[k] == e;
    }
  }

  lemma {:induction false} ConcatMapMembership<T, U>(xs: seq<T>, f: T -> seq<U>, e: U)
    ensures e in ConcatMap(xs, f) <==> exists i :: 0 <= i < |xs| && e in f(xs[i])
  {
    if xs != [] {
      var init := xs[..|xs| - 1];
      ConcatMapMembership(init, f, e);
      if i :| 0 <= i < |init| && e in f(init[i]) {
        assert xs[i] == init[i];
      }
      if i :| 0 <= i < |xs| && e in f(xs[i]) {
        if i < |init| {
          assert init[i] == xs[i];
        }
      }
    }
  }

  lemma PipelinesEntriesMembership(ps: seq<PipelineStats>, e: OperatorEntry)
    ensures e in PipelinesEntries(ps) <==> exists q :: 0 <= q < |ps| && e in PipelineEntries(ps[q])
  {
    ConcatMapMembership(ps, PipelineEntries, e);
  }

  lemma OperatorEntriesMembership(ts: seq<TaskStats>, e: OperatorEntry)
    ensures e in OperatorEntries(ts) <==> exists t :: 0 <= t < |ts| && e in PipelinesEntries(ts[t].pipelines)
  {
    ConcatMapMembership(ts, TaskEntries, e);
  }

  /** True when some operator of some pipeline of some task in `ts` has key `id`. */
  ghost predicate OccursIn(ts: seq<TaskStats>, id: string) {
    exists t, q, k :: 0 <= t < |ts| && 0 <= q < |ts[t].pipelines| && 0 <= k < |ts[t].pipelines[q].operatorSummaries|
      && OperatorId(ts[t].pipelines[q].pipelineId, ts[t].pipelines[q].operatorSummaries[k].operatorId) == id
  }

  lemma IdsOfOperatorEntries(ts: seq<TaskStats>, id: string)
    ensures id in Ids(OperatorEntries(ts)) <==> OccursIn(ts, id)
  {
    var es := OperatorEntries(ts);
    IdsMembership(es, id);
    if id in Ids(es) {
      var i :| 0 <= i < |es| && es[i].id == id;
      OperatorEntriesMembership(ts, es[i]);
      var t :| 0 <= t < |ts| && es[i] in PipelinesEntries(ts[t].pipelines);
      PipelinesEntriesMembership(ts[t].pipelines, es[i]);
      var q :| 0 <= q < |ts[t].pipelines| && es[i] in PipelineEntries(ts[t].pipelines[q]);
      PipelineEntriesMembership(ts[t].pipelines[q], es[i]);
      var k :| 0 <= k < |ts[t].pipelines[q].operatorSummaries| && es[i] == EntryOf(ts[t].pipelines[q], k);
    }
    if OccursIn(ts, id) {
      var t, q, k :| 0 <= t < |ts| && 0 <= q < |ts[t].pipelines| && 0 <= k < |ts[t].pipelines[q].operatorSummaries|
        && OperatorId(ts[t].pipelines[q].pipelineId, ts[t].pipelines[q].operatorSummaries[k].operatorId) == id;
      var e := EntryOf(ts[t].pipelines[q], k);
      PipelineEntriesMembership(ts[t].pipelines[q], e);
      PipelinesEntriesMembership(ts[t].pipelines, e);
      OperatorEntriesMembership(ts, e);
      var i :| 0 <= i < |es| && es[i] == e;
    }
  }

  /**
    The operator statistics of a stage: one entry per key that some operator of
    some task has, holding the fold of `add` over that key's statistics in task,
    pipeline and operator order.
   */
  lemma OperatorSummaries(ts: seq<TaskStats>, add: (OperatorStats, OperatorStats) -> OperatorStats)
    ensures forall id :: id in Merge(map[], OperatorEntries(ts), add) <==> OccursIn(ts, id)
    ensures forall id :: id in Merge(map[], OperatorEntries(ts), add) ==>
      StatsWithId(OperatorEntries(ts), id) != [] &&
      Merge(map[], OperatorEntries(ts), add)[id] == FoldAdd(StatsWithId(OperatorEntries(ts), id), add)
  {
    MergeFromEmpty(OperatorEntries(ts), add);
    forall id ensures id in Ids(OperatorEntries(ts)) <==> OccursIn(ts, id) {
      IdsOfOperatorEntries(ts, id);
    }
  }

  /**
    Two operators of the stage's tasks both have an entry in the operator map,
    and it is the same entry exactly when they have the same pipeline id and
    the same operator id.
   */
  lemma OperatorsShareEntryIff(ts: seq<TaskStats>, add: (OperatorStats, OperatorStats) -> OperatorStats,
                               t1: nat, q1: nat, k1: nat, t2: nat, q2: nat, k2: nat)
    requires t1 < |ts| && q1 < |ts[t1].pipelines| && k1 < |ts[t1].pipelines[q1].operatorSummaries|
    requires t2 < |ts| && q2 < |ts[t2].pipelines| && k2 < |ts[t2].pipelines[q2].operatorSummaries|
    ensures EntryOf(ts[t1].pipelines[q1], k1).id in Merge(map[], OperatorEntries(ts), add)
    ensures EntryOf(ts[t2].pipelines[q2], k2).id in Merge(map[], OperatorEntries(ts), add)
    ensures EntryOf(ts[t1].pipelines[q1], k1).id == EntryOf(ts[t2].pipelines[q2], k2).id <==>
      ts[t1].pipelines[q1].pipelineId == ts[t2].pipelines[q2].pipelineId &&
      ts[t1].pipelines[q1].operatorSummaries[k1].operatorId == ts[t2].pipelines[q2].operatorSummaries[k2].operatorId
  {
    var p1, p2 := ts[t1].pipelines[q1], ts[t2].pipelines[q2];
    OperatorSummaries(ts, add);
    assert OccursIn(ts, EntryOf(p1, k1).id);
    assert OccursIn(ts, EntryOf(p2, k2).id);
    OperatorIdInjective(p1.pipelineId, p1.operatorSummaries[k1].operatorId, p2.pipelineId, p2.operatorSummaries[k2].operatorId);
  }

  // ---------------------------------------------------------------------------
  // Order independence

  ghost predicate Associative(add: (OperatorStats, OperatorStats) -> OperatorStats) {
    forall a, b, c :: add(add(a, b), c) == add(a, add(b, c))
  }

  ghost predicate Commutative(add: (OperatorStats, OperatorStats) -> OperatorStats) {
    forall a, b :: add(a, b) == add(b, a)
  }

  lemma ComputeCommutes(m: OperatorStatsMap, x: OperatorEntry, y: OperatorEntry, add: (OperatorStats, OperatorStats) -> OperatorStats)
    requires Associative(add) && Commutative(add)
    ensures Compute(Compute(m, x, add), y, add) == Compute(Compute(m, y, add), x, add)
  {
    if x.id != y.id {
      var vx := if x.id in m then add(m[x.id], x.stats) else x.stats;
      var vy := if y.id in m then add(m[y.id], y.stats) else y.stats;
      assert Compute(m, x, add) == m[x.id := vx];
      assert Compute(m, y, add) == m[y.id := vy];
      assert m[x.id := vx][y.id := vy] == m[y.id := vy][x.id := vx];
    } else if x.id in m {
      var v := m[x.id];
      calc {
        add(add(v, x.stats), y.stats);
        add(v, add(x.stats, y.stats));
        add(v, add(y.stats, x.stats));
        add(add(v, y.stats), x.stats);
      }
    } else {
      assert add(x.stats, y.stats) == add(y.stats, x.stats);
    }
  }

  /** An entry anywhere in the sequence may be merged last instead. */
  lemma {:induction false} MergeMoveLast(m: OperatorStatsMap, a: seq<OperatorEntry>, x: OperatorEntry, b: seq<OperatorEntry>,
                                         add: (OperatorStats, OperatorStats) -> OperatorStats)
    requires Associative(add) && Commutative(add)
    ensures Merge(m, a + [x] + b, add) == Compute(Merge(m, a + b, add), x, add)
  {
    if b == [] {
      assert a + [x] + b == a + [x];
      assert a + b == a;
      MergeSnoc(m, a, x, add);
    } else {
      var b', y := b[..|b| - 1], b[|b| - 1];
      assert a + [x] + b == (a + [x] + b') + [y];
      assert a + b == (a + b') + [y];
      MergeSnoc(m, a + [x] + b', y, add);
      MergeMoveLast(m, a, x, b', add);
      ComputeCommutes(Merge(m, a + b', add), x, y, add);
      MergeSnoc(m, a + b', y, add);
    }
  }

  /**
    The last element of `s1` occurs in a permutation `s2` of it; what surrounds
    that occurrence is a permutation of the rest of `s1`.
   */
  lemma SplitAtLast<T>(s1: seq<T>, s2: seq<T>) returns (a: seq<T>, b: seq<T>)
    requires s1 != [] && multiset(s1) == multiset(s2)
    ensures s2 == a + [s1[|s1| - 1]] + b
    ensures multiset(s1[..|s1| - 1]) == multiset(a + b)
  {
    var init, x := s1[..|s1| - 1], s1[|s1| - 1];
    assert s1 == init + [x];
    assert x in multiset(s2);
    var i :| 0 <= i < |s2| && s2[i] == x;
    a, b := s2[..i], s2[i + 1..];
    assert s2 == a + [x] + b;
    assert multiset(s1) == multiset(init) + multiset{x};
    assert multiset(s2) == multiset(a) + multiset{x} + multiset(b);
    assert multiset(a + b) == multiset(a) + multiset(b);
    assert multiset(init) == multiset(s1) - multiset{x};
    assert multiset(a + b) == multiset(s2) - multiset{x};
  }

  /** With an associative and commutative `add`, the order of the entries does not matter. */
  lemma {:induction false} MergeOrderIndependent(m: OperatorStatsMap, es1: seq<OperatorEntry>, es2: seq<OperatorEntry>,
                                                 add: (OperatorStats, OperatorStats) -> OperatorStats)
    requires Associative(add) && Commutative(add)
    requires multiset(es1) == multiset(es2)
    ensures Merge(m, es1, add) == Merge(m, es2, add)
    decreases |es1|
  {
    if es1 == [] {
      assert |es2| == |multiset(es2)| == 0;
    } else {
      var init, x := es1[..|es1| - 1], es1[|es1| - 1];
      var a, b := SplitAtLast(es1, es2);
      MergeOrderIndependent(m, init, a + b, add);
      MergeMoveLast(m, a, x, b, add);
    }
  }

  // ---------------------------------------------------------------------------
  // Reordering the tasks reorders the entries

  lemma {:induction false} ConcatMapAppend<T, U>(a: seq<T>, b: seq<T>, f: T -> seq<U>)
    ensures ConcatMap(a + b, f) == ConcatMap(a, f) + ConcatMap(b, f)
  {
    if b != [] {
      var b', y := b[..|b| - 1], b[|b| - 1];
      assert (a + b)[..|a + b| - 1] == a + b';
      ConcatMapAppend(a, b', f);
      calc {
        ConcatMap(a + b, f);
        ConcatMap(a + b', f) + f(y);
        ConcatMap(a, f) + ConcatMap(b', f) + f(y);
        ConcatMap(a, f) + (ConcatMap(b', f) + f(y));
        ConcatMap(a, f) + ConcatMap(b, f);
      }
    } else {
      assert a + b == a;
    }
  }

  /** Reordering the `xs` reorders the concatenation. */
  lemma {:induction false} ConcatMapPermutation<T, U>(xs1: seq<T>, xs2: seq<T>, f: T -> seq<U>)
    requires multiset(xs1) == multiset(xs2)
    ensures multiset(ConcatMap(xs1, f)) == multiset(ConcatMap(xs2, f))
    decreases |xs1|
  {
    if xs1 == [] {
      assert |xs2| == |multiset(xs2)| == 0;
    } else {
      var init, x := xs1[..|xs1| - 1], xs1[|xs1| - 1];
      var a, b := SplitAtLast(xs1, xs2);
      ConcatMapPermutation(init, a + b, f);
      ConcatMapAppend(a, b, f);
      ConcatMapAppend(a + [x], b, f);
      ConcatMapAppend(a, [x], f);
      assert ConcatMap([x], f) == f(x) by {
        assert [x][..0] == [];
      }
    }
  }

  /** Reordering the tasks does not change the merged operator statistics. */
  lemma OperatorSummariesOrderIndependent(ts1: seq<TaskStats>, ts2: seq<TaskStats>, add: (OperatorStats, OperatorStats) -> OperatorStats)
    requires Associative(add) && Commutative(add)
    requires multiset(ts1) == multiset(ts2)
    ensures Merge(map[], OperatorEntries(ts1), add) == Merge(map[], OperatorEntries(ts2), add)
  {
    ConcatMapPermutation(ts1, ts2, TaskEntries);
    MergeOrderIndependent(map[], OperatorEntries(ts1), OperatorEntries(ts2), add);
  }
}
