/** Validated plans: the schedule they are walked by, and the batches their parallel steps run in. A
    wave is a layer of the dependency graph, a batch a set of its parallel steps that name no common
    file, a chunk as much of a batch as may run at once. */
module Plans {
  import opened Options
  import opened Sequences
  import opened Journal

  type Path = string

  /** `waves` are the dependency layers computed by validation; `targets` names the files a step may
      touch. */
  datatype RawPlan = RawPlan(waves: seq<seq<StepId>>, parallel: set<StepId>, checkpoints: set<StepId>,
                             targets: map<StepId, set<Path>>)
  {
    function Order(): seq<StepId> {
      Flatten(waves)
    }

    function Targets(s: StepId): set<Path> {
      if s in targets then targets[s] else {}
    }

    predicate Conflict(a: StepId, b: StepId) {
      Targets(a) * Targets(b) != {}
    }

    /** The group of `s`: the parallel steps of its wave, or `s` alone. */
    function GroupFor(s: StepId): (group: seq<StepId>) {
      if s in parallel then Keep(WaveOf(waves, s), parallel) else [s]
    }

    function NextIncomplete(done: set<StepId>): (r: Option<StepId>)
      ensures r == None <==> forall s :: s in Order() ==> s in done
      ensures r.Some? ==> IsFirstOutside(Order(), done, r.value)
    {
      FirstOutside(Order(), done)
    }
  }

  /** Validation only passes plans whose step ids are unique. */
  type Plan = p: RawPlan | Distinct(p.Order()) witness RawPlan([], {}, {}, map[])

  /** `x` is not done, and everything listed before it is. */
  predicate IsFirstOutside(s: seq<StepId>, done: set<StepId>, x: StepId) {
    exists n :: 0 <= n < |s| && s[n] == x && x !in done && forall i :: 0 <= i < n ==> s[i] in done
  }

  function FirstOutside(s: seq<StepId>, done: set<StepId>): (r: Option<StepId>)
    ensures r == None <==> forall x :: x in s ==> x in done
    ensures r.Some? ==> IsFirstOutside(s, done, r.value)
  {
    if s == [] then None
    else if s[0] !in done then Some(s[0])
    else
      var r := FirstOutside(s[1..], done);
      assert r.Some? ==> IsFirstOutside(s, done, r.value) by {
        if r.Some? {
          var n :| 0 <= n < |s[1..]| && s[1..][n] == r.value && forall i :: 0 <= i < n ==> s[1..][i] in done;
          assert s[n + 1] == r.value && forall i :: 0 < i < n + 1 ==> s[i] == s[1..][i - 1];
        }
      }
      r
  }

  /** The elements of `s` that are in `keep`, in order. */
  function Keep(s: seq<StepId>, keep: set<StepId>): (r: seq<StepId>)
    ensures forall x :: x in r <==> x in s && x in keep
  {
    if s == [] then []
    else if s[0] in keep then [s[0]] + Keep(s[1..], keep)
    else Keep(s[1..], keep)
  }

  /** The elements of `s` that are not in `drop`, in order. */
  function Drop(s: seq<StepId>, drop: set<StepId>): (r: seq<StepId>)
    ensures forall x :: x in r <==> x in s && x !in drop
  {
    if s == [] then []
    else if s[0] !in drop then [s[0]] + Drop(s[1..], drop)
    else Drop(s[1..], drop)
  }

  function WaveOf(waves: seq<seq<StepId>>, s: StepId): (wave: seq<StepId>)
    ensures wave == [] || (wave in waves && s in wave)
    ensures wave == [] ==> s !in Flatten(waves)
  {
    if waves == [] then []
    else if s in waves[0] then waves[0]
    else WaveOf(waves[1..], s)
  }

  // ---------------------------------------------------------------- conflict-free batches

  predicate Fits(p: RawPlan, batch: seq<StepId>, s: StepId) {
    forall other :: other in batch ==> !p.Conflict(s, other)
  }

  /** The first batch `s` does not conflict with, or the number of batches. */
  function FirstFit(p: RawPlan, batches: seq<seq<StepId>>, s: StepId): (i: nat)
    ensures i <= |batches|
    ensures forall k :: 0 <= k < i ==> !Fits(p, batches[k], s)
    ensures i < |batches| ==> Fits(p, batches[i], s)
  {
    if batches == [] || Fits(p, batches[0], s) then 0
    else
      var i := FirstFit(p, batches[1..], s);
      assert forall k :: 1 <= k < i + 1 ==> batches[k] == batches[1..][k - 1];
      1 + i
  }

  function InBatches(p: RawPlan, batches: seq<seq<StepId>>, s: StepId): seq<seq<StepId>> {
    var i := FirstFit(p, batches, s);
    if i < |batches| then batches[i := batches[i] + [s]] else batches + [[s]]
  }

  function Batched(p: RawPlan, ids: seq<StepId>): seq<seq<StepId>> {
    if ids == [] then [] else InBatches(p, Batched(p, ids[..|ids| - 1]), ids[|ids| - 1])
  }

  predicate ConflictFree(p: RawPlan, batch: seq<StepId>) {
    forall i, j :: 0 <= i < j < |batch| ==> !p.Conflict(batch[i], batch[j])
  }

  lemma {:induction false} FlattenedNothing(p: RawPlan)
    ensures Flatten(Batched(p, [])) == []
  {
  }

  lemma {:induction false} EachStepPlacedOnce(p: RawPlan, ids: seq<StepId>)
    ensures multiset(Flatten(Batched(p, ids))) == multiset(ids)
  {
    hide Flatten, FirstFit;
    if ids == [] {
      FlattenedNothing(p);
    } else {
      var before, s := ids[..|ids| - 1], ids[|ids| - 1];
      EachStepPlacedOnce(p, before);
      var batches := Batched(p, before);
      var i := FirstFit(p, batches, s);
      assert ids == before + [s];
      if i < |batches| {
        FlattenMultiset(batches, i, [s]);
      } else {
        FlattenAppend(batches, [s]);
      }
    }
  }

  lemma {:induction false} GrownBatch(p: RawPlan, batch: seq<StepId>, s: StepId)
    requires ConflictFree(p, batch) && Fits(p, batch, s)
    ensures ConflictFree(p, batch + [s])
  {
    forall a | 0 <= a < |batch|
      ensures !p.Conflict(batch[a], s)
    {
      assert batch[a] in batch;
      assert p.Targets(s) * p.Targets(batch[a]) == p.Targets(batch[a]) * p.Targets(s);
    }
  }

  /** No two steps of a batch name the same file. */
  lemma {:induction false} BatchesAreConflictFree(p: RawPlan, ids: seq<StepId>)
    ensures forall k :: 0 <= k < |Batched(p, ids)| ==> ConflictFree(p, Batched(p, ids)[k])
  {
    if ids != [] {
      var before, s := ids[..|ids| - 1], ids[|ids| - 1];
      BatchesAreConflictFree(p, before);
      var batches := Batched(p, before);
      var i := FirstFit(p, batches, s);
      if i < |batches| {
        GrownBatch(p, batches[i], s);
      }
    }
  }

  method PartitionConflictFree(p: RawPlan, ids: seq<StepId>) returns (batches: seq<seq<StepId>>)
    ensures batches == Batched(p, ids)
    ensures multiset(Flatten(batches)) == multiset(ids)
    ensures forall k :: 0 <= k < |batches| ==> ConflictFree(p, batches[k])
  {
    batches := [];
    for n := 0 to |ids|
      invariant batches == Batched(p, ids[..n])
    {
      assert ids[..n + 1][..n] == ids[..n];
      var i := 0;
      while i < |batches| && !Fits(p, batches[i], ids[n])
        invariant 0 <= i <= |batches|
        invariant forall k :: 0 <= k < i ==> !Fits(p, batches[k], ids[n])
      {
        i := i + 1;
      }
      if i < |batches| {
        batches := batches[i := batches[i] + [ids[n]]];
      } else {
        batches := batches + [[ids[n]]];
      }
    }
    assert ids[..|ids|] == ids;
    BatchesAreConflictFree(p, ids);
    EachStepPlacedOnce(p, ids);
  }

  // ---------------------------------------------------------------- chunks

  const MAX_PARALLEL_CHILDREN: nat := 4

  function Chunks(batch: seq<StepId>): (chunks: seq<seq<StepId>>)
    ensures Flatten(chunks) == batch
    ensures forall c :: c in chunks ==> 0 < |c| <= MAX_PARALLEL_CHILDREN
  {
    if batch == [] then []
    else if |batch| <= MAX_PARALLEL_CHILDREN then
      assert Flatten([batch]) == batch + Flatten<StepId>([]);
      [batch]
    else
      var head := batch[..MAX_PARALLEL_CHILDREN];
      var rest := Chunks(batch[MAX_PARALLEL_CHILDREN..]);
      assert ([head] + rest)[1..] == rest;
      [head] + rest
  }

  function AllChunks(batches: seq<seq<StepId>>): (chunks: seq<seq<StepId>>)
    ensures Flatten(chunks) == Flatten(batches)
  {
    if batches == [] then []
    else
      FlattenConcat(Chunks(batches[0]), AllChunks(batches[1..]));
      Chunks(batches[0]) + AllChunks(batches[1..])
  }
}
