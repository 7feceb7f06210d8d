/** In which order the children of a wave are folded back: the next step first, and those that ran at once in
    the plan's order. */
module AgentWaveOrder {
  import opened Journal
  import opened Plans
  import opened Sequences
  import opened Agent
  import opened AgentWaves

  /** `b` stands somewhere behind `a` in `order`. */
  predicate Behind(order: seq<StepId>, a: StepId, b: StepId) {
    exists m, n :: 0 <= m < n < |order| && order[m] == a && order[n] == b
  }

  /** The steps of `s` stand in the same order in `order`. */
  predicate Follows(s: seq<StepId>, order: seq<StepId>) {
    forall i, k :: 0 <= i < k < |s| ==> Behind(order, s[i], s[k])
  }

  lemma {:induction false} FollowsOn(s: seq<StepId>, mid: seq<StepId>, order: seq<StepId>)
    requires Follows(s, mid) && Follows(mid, order)
    ensures Follows(s, order)
  {
    forall i, k | 0 <= i < k < |s|
      ensures Behind(order, s[i], s[k])
    {
      assert Behind(mid, s[i], s[k]);
      var m, n :| 0 <= m < n < |mid| && mid[m] == s[i] && mid[n] == s[k];
      assert Behind(order, mid[m], mid[n]);
    }
  }

  lemma {:induction false} PartFollows(s: seq<StepId>, before: seq<StepId>, after: seq<StepId>)
    ensures Follows(s, before + s + after)
  {
    var whole := before + s + after;
    forall i, k | 0 <= i < k < |s|
      ensures Behind(whole, s[i], s[k])
    {
      assert whole[|before| + i] == s[i] && whole[|before| + k] == s[k];
    }
  }

  lemma {:induction false} LaterBehind(first: StepId, rest: seq<StepId>, a: StepId, b: StepId)
    ensures b in rest ==> Behind([first] + rest, first, b)
    ensures Behind(rest, a, b) ==> Behind([first] + rest, a, b)
  {
    var whole := [first] + rest;
    if b in rest {
      var n :| 0 <= n < |rest| && rest[n] == b;
      assert whole[0] == first && whole[n + 1] == b;
    }
    if Behind(rest, a, b) {
      var m, n :| 0 <= m < n < |rest| && rest[m] == a && rest[n] == b;
      assert whole[m + 1] == a && whole[n + 1] == b;
    }
  }

  /** Taking one more element in front, or leaving it out. */
  lemma {:induction false} OneMoreFollows(first: StepId, s: seq<StepId>, rest: seq<StepId>)
    requires Follows(s, rest) && forall x :: x in s ==> x in rest
    ensures Follows(s, [first] + rest) && Follows([first] + s, [first] + rest)
  {
    hide Behind;
    forall i, k | 0 <= i < k < |s|
      ensures Behind([first] + rest, s[i], s[k])
    {
      LaterBehind(first, rest, s[i], s[k]);
    }
    var t := [first] + s;
    forall i, k | 0 <= i < k < |t|
      ensures Behind([first] + rest, t[i], t[k])
    {
      assert t[k] == s[k - 1];
      LaterBehind(first, rest, t[i], t[k]);
      assert i > 0 ==> t[i] == s[i - 1];
    }
  }

  lemma {:induction false} KeptFollow(s: seq<StepId>, keep: set<StepId>)
    ensures Follows(Keep(s, keep), s)
  {
    hide Follows;
    if s == [] {
      NothingFollows([]);
    } else {
      KeptFollow(s[1..], keep);
      OneMoreFollows(s[0], Keep(s[1..], keep), s[1..]);
      assert s == [s[0]] + s[1..];
    }
  }

  lemma {:induction false} RestFollows(s: seq<StepId>, drop: set<StepId>)
    ensures Follows(Drop(s, drop), s)
  {
    hide Follows;
    if s == [] {
      NothingFollows([]);
    } else {
      RestFollows(s[1..], drop);
      OneMoreFollows(s[0], Drop(s[1..], drop), s[1..]);
      assert s == [s[0]] + s[1..];
    }
  }

  lemma {:induction false} NothingFollows(order: seq<StepId>)
    ensures Follows([], order)
  {
  }

  lemma {:induction false} WaveFollows(waves: seq<seq<StepId>>, s: StepId)
    ensures Follows(WaveOf(waves, s), Flatten(waves))
  {
    hide Follows, Flatten;
    if waves == [] {
      NothingFollows(Flatten(waves));
    } else {
      FlattenFirst(waves);
      if s in waves[0] {
        PartFollows(waves[0], [], Flatten(waves[1..]));
        assert [] + waves[0] + Flatten(waves[1..]) == Flatten(waves);
      } else {
        var wave, rest := WaveOf(waves[1..], s), Flatten(waves[1..]);
        WaveFollows(waves[1..], s);
        PartFollows(rest, waves[0], []);
        assert waves[0] + rest + [] == Flatten(waves);
        FollowsOn(wave, rest, Flatten(waves));
      }
    }
  }

  /** What is left of a step's group stands in the plan's order. */
  lemma {:induction false} GroupFollows(p: Plan, j: Log, s: StepId)
    ensures Follows(Incomplete(p, j, s), p.Order())
  {
    hide Follows, Flatten, CompletedSteps, WaveOf;
    var group := p.GroupFor(s);
    RestFollows(group, CompletedSteps(j));
    if s in p.parallel {
      WaveFollows(p.waves, s);
      KeptFollow(WaveOf(p.waves, s), p.parallel);
      FollowsOn(group, WaveOf(p.waves, s), p.Order());
    } else {
      OneFollows(s, p.Order());
    }
    FollowsOn(Incomplete(p, j, s), group, p.Order());
  }

  lemma {:induction false} OneFollows(s: StepId, order: seq<StepId>)
    ensures Follows([s], order)
  {
  }

  /** A batch grows by a later step at its end. */
  lemma {:induction false} GrownFollows(batch: seq<StepId>, before: seq<StepId>, s: StepId)
    requires Follows(batch, before) && forall x :: x in batch ==> x in before
    ensures Follows(batch, before + [s]) && Follows(batch + [s], before + [s])
  {
    var whole, grown := before + [s], batch + [s];
    forall i, k | 0 <= i < k < |grown|
      ensures Behind(whole, grown[i], grown[k])
    {
      if k < |batch| {
        assert Behind(before, batch[i], batch[k]);
        var m, n :| 0 <= m < n < |before| && before[m] == batch[i] && before[n] == batch[k];
        assert whole[m] == grown[i] && whole[n] == grown[k];
      } else {
        assert batch[i] in before;
        var m :| 0 <= m < |before| && before[m] == batch[i];
        assert whole[m] == grown[i] && whole[|before|] == grown[k];
      }
    }
    forall i, k | 0 <= i < k < |batch|
      ensures Behind(whole, batch[i], batch[k])
    {
      assert grown[i] == batch[i] && grown[k] == batch[k];
    }
  }

  lemma {:induction false} BatchesFollow(p: Plan, ids: seq<StepId>)
    ensures forall b :: b in Batched(p, ids) ==> Follows(b, ids) && forall x :: x in b ==> x in ids
  {
    hide Follows, FirstFit;
    if ids != [] {
      var before, s := ids[..|ids| - 1], ids[|ids| - 1];
      assert ids == before + [s];
      BatchesFollow(p, before);
      var batches := Batched(p, before);
      var i := FirstFit(p, batches, s);
      forall b | b in Batched(p, ids)
        ensures Follows(b, ids) && forall x :: x in b ==> x in ids
      {
        if b in batches {
          GrownFollows(b, before, s);
        } else if i < |batches| {
          assert batches[i] in batches && b == batches[i] + [s];
          GrownFollows(batches[i], before, s);
        } else {
          assert b == [s];
          OneFollows(s, ids);
        }
      }
    }
  }

  lemma {:induction false} ChunkFollows(batch: seq<StepId>)
    ensures forall c :: c in Chunks(batch) ==> Follows(c, batch)
  {
    hide Follows;
    if |batch| <= MAX_PARALLEL_CHILDREN {
      PartFollows(batch, [], []);
      assert [] + batch + [] == batch;
    } else {
      var head, tail := batch[..MAX_PARALLEL_CHILDREN], batch[MAX_PARALLEL_CHILDREN..];
      ChunkFollows(tail);
      assert batch == [] + head + tail == head + tail + [];
      PartFollows(head, [], tail);
      PartFollows(tail, head, []);
      forall c | c in Chunks(batch)
        ensures Follows(c, batch)
      {
        if c != head {
          FollowsOn(c, tail, batch);
        }
      }
    }
  }

  lemma {:induction false} ChunksFollow(batches: seq<seq<StepId>>, order: seq<StepId>)
    requires forall b :: b in batches ==> Follows(b, order)
    ensures forall c :: c in AllChunks(batches) ==> Follows(c, order)
  {
    hide Follows, Chunks;
    if batches != [] {
      ChunkFollows(batches[0]);
      ChunksFollow(batches[1..], order);
      forall c | c in Chunks(batches[0])
        ensures Follows(c, order)
      {
        FollowsOn(c, batches[0], order);
      }
    }
  }

  /** Steps completed one after the other without an edit between stand in this order. */
  ghost predicate InPlanOrder(ws: seq<Write>, order: seq<StepId>) {
    forall i, k :: 0 <= i < k < |ws| && Completes(ws[i]) && Completes(ws[k]) && (forall m :: i < m < k ==> !ws[m].World?)
                   ==> Behind(order, ws[i].entry.step, ws[k].entry.step)
  }

  predicate Completes(w: Write) {
    w.Append? && w.entry.StepCompleted?
  }

  lemma {:induction false} OneMoreInOrder(open: seq<Write>, s: StepId, rest: seq<Write>, tail: seq<StepId>)
    requires (forall w :: w in open ==> !Completes(w)) && InPlanOrder(rest, tail)
    requires forall w :: w in rest && Completes(w) ==> w.entry.step in tail
    ensures InPlanOrder(open + [Append(StepCompleted(s))] + rest, [s] + tail)
  {
    hide Behind;
    var ws, from := open + [Append(StepCompleted(s))] + rest, |open| + 1;
    assert forall i :: 0 <= i < |open| ==> ws[i] == open[i] && !Completes(ws[i]);
    assert forall i :: from <= i < |ws| ==> ws[i] == rest[i - from];
    forall i, k | 0 <= i < k < |ws| && Completes(ws[i]) && Completes(ws[k]) && (forall m :: i < m < k ==> !ws[m].World?)
      ensures Behind([s] + tail, ws[i].entry.step, ws[k].entry.step)
    {
      assert k >= from && rest[k - from] in rest;
      LaterBehind(s, tail, ws[i].entry.step, ws[k].entry.step);
      if i >= from {
        assert forall m :: i - from < m < k - from ==> rest[m] == ws[from + m];
      }
    }
  }

  lemma {:induction false} FoldInOrder(j: Log, p: Plan, chunk: seq<StepId>, ok: set<StepId>)
    ensures InPlanOrder(FoldChildren(j, p, chunk, ok), chunk)
    ensures forall w :: w in FoldChildren(j, p, chunk, ok) && Completes(w) ==> w.entry.step in chunk
  {
    hide OpenStep, InPlanOrder;
    NoWriteInOrder(chunk);
    NoFailureInOrder(chunk);
    if chunk != [] && chunk[0] in ok {
      FoldInOrder(j, p, chunk[1..], ok);
      OpeningIsQuiet(j, p, chunk[0]);
      OneMoreInOrder(OpenStep(j, p, chunk[0]), chunk[0], FoldChildren(j, p, chunk[1..], ok), chunk[1..]);
      assert chunk == [chunk[0]] + chunk[1..];
    }
  }

  lemma {:induction false} NoFailureInOrder(order: seq<StepId>)
    ensures InPlanOrder(FAILING, order)
  {
  }

  lemma {:induction false} OrderWidens(ws: seq<Write>, chunk: seq<StepId>, order: seq<StepId>)
    requires InPlanOrder(ws, chunk) && Follows(chunk, order)
    ensures InPlanOrder(ws, order)
  {
    forall i, k | 0 <= i < k < |ws| && Completes(ws[i]) && Completes(ws[k]) && (forall m :: i < m < k ==> !ws[m].World?)
      ensures Behind(order, ws[i].entry.step, ws[k].entry.step)
    {
      assert Behind(chunk, ws[i].entry.step, ws[k].entry.step);
      var m, n :| 0 <= m < n < |chunk| && chunk[m] == ws[i].entry.step && chunk[n] == ws[k].entry.step;
      assert Behind(order, chunk[m], chunk[n]);
    }
  }

  lemma {:induction false} OrderedConcat(edits: seq<Write>, fold: seq<Write>, rest: seq<Write>, order: seq<StepId>)
    requires (forall w :: w in edits ==> w.World?) && InPlanOrder(fold, order) && InPlanOrder(rest, order)
    requires rest != [] ==> rest[0].World?
    ensures InPlanOrder(edits + fold + rest, order)
  {
    hide Behind;
    var ws, from, to := edits + fold + rest, |edits|, |edits + fold|;
    assert forall i :: 0 <= i < from ==> ws[i] == edits[i] && ws[i] in edits;
    assert forall i :: from <= i < to ==> ws[i] == fold[i - from];
    assert forall i :: to <= i < |ws| ==> ws[i] == rest[i - to];
    assert rest != [] ==> ws[to].World?;
    forall i, k | 0 <= i < k < |ws| && Completes(ws[i]) && Completes(ws[k]) && (forall m :: i < m < k ==> !ws[m].World?)
      ensures Behind(order, ws[i].entry.step, ws[k].entry.step)
    {
      assert i >= from && (k < to || i >= to);
      if k < to {
        assert forall m :: i - from < m < k - from ==> fold[m] == ws[m + from];
      } else {
        assert forall m :: i - to < m < k - to ==> rest[m] == ws[m + to];
      }
    }
  }

  lemma {:induction false} WaveInOrder(j: Log, p: Plan, chunks: seq<seq<StepId>>, ok: set<StepId>, order: seq<StepId>)
    requires forall c :: c in chunks ==> c != [] && Follows(c, order)
    ensures var ws := WaveWrites(j, p, chunks, ok); InPlanOrder(ws, order) && (ws != [] ==> ws[0].World?)
    decreases |chunks|
  {
    hide FoldChildren, InPlanOrder, Follows;
    NoWriteInOrder(order);
    if chunks != [] {
      var edits := seq(|chunks[0]|, _ => World(Edited));
      var fold := FoldChildren(j, p, chunks[0], ok);
      var rest := if forall s :: s in chunks[0] ==> s in ok then WaveWrites(j, p, chunks[1..], ok) else [];
      assert forall c :: c in chunks[1..] ==> c in chunks;
      FoldInOrder(j, p, chunks[0], ok);
      OrderWidens(fold, chunks[0], order);
      WaveInOrder(j, p, chunks[1..], ok, order);
      OrderedConcat(edits, fold, rest, order);
      assert WaveWrites(j, p, chunks, ok) == edits + fold + rest;
    }
  }

  lemma {:induction false} NoWriteInOrder(order: seq<StepId>)
    ensures InPlanOrder([], order)
  {
  }

  /** Children that ran at once are folded back in the plan's order. */
  lemma {:induction false} FoldedInPlanOrder(t: Task, e: Env, p: Plan, s: StepId)
    requires StepIsDue(t, e, p, s) && RunsInWave(p, CompletedSteps(t.d.journal), s)
    ensures InPlanOrder(Do(t, Drive(e)).writes, p.Order())
  {
    hide CompletedSteps, RunsInWave, Incomplete, WaveWrites, LastTool, Do, InPlanOrder, Follows, RunsAtOnce, ConflictFree, Batched,
         AllChunks, RawPlan.Order;
    DueStep(t, e, p, s);
    var ids := Incomplete(p, t.d.journal, s);
    GroupFollows(p, t.d.journal, s);
    BatchesFollow(p, ids);
    forall b | b in Batched(p, ids)
      ensures Follows(b, p.Order())
    {
      FollowsOn(b, ids, p.Order());
    }
    ChunksFollow(Batched(p, ids), p.Order());
    BatchesAreConflictFree(p, ids);
    AllRunAtOnce(p, Batched(p, ids));
    forall c | c in AllChunks(Batched(p, ids))
      ensures c != []
    {
      AtOnceMeans(p, c);
    }
    WaveInOrder(t.d.journal, p, AllChunks(Batched(p, ids)), e.childrenOk, p.Order());
  }

  // ---------------------------------------------------------------- which step comes first

  /** The next step stands first in what is left of its group. */
  lemma {:induction false} NextIsFirst(t: Task, e: Env, p: Plan, s: StepId)
    requires StepIsDue(t, e, p, s)
    ensures var ids := Incomplete(p, t.d.journal, s); ids != [] && ids[0] == s
  {
    hide CompletedSteps, RawPlan.Order, Incomplete, Eligible, LastTool;
    var j, ids := t.d.journal, Incomplete(p, t.d.journal, s);
    DueStep(t, e, p, s);
    InOwnGroup(p, j, s);
    var i :| 0 <= i < |ids| && ids[i] == s;
    if i > 0 {
      GroupFollows(p, j, s);
      assert Behind(p.Order(), ids[0], ids[i]);
      var m, n :| 0 <= m < n < |p.Order()| && p.Order()[m] == ids[0] && p.Order()[n] == s;
      var k :| 0 <= k < |p.Order()| && p.Order()[k] == s && forall l :: 0 <= l < k ==> p.Order()[l] in CompletedSteps(j);
      assert k == n;
      StillToDo(p, j, s, ids[0]);
    }
  }

  lemma {:induction false} InOwnGroup(p: Plan, j: Log, s: StepId)
    requires s in p.Order() && s !in CompletedSteps(j)
    ensures s in Incomplete(p, j, s)
  {
    hide CompletedSteps;
    GroupIs(p, j, s, s);
    if s in p.parallel {
      OwnWave(p, CompletedSteps(j), s);
    }
  }

  lemma {:induction false} StillToDo(p: Plan, j: Log, s: StepId, x: StepId)
    requires x in Incomplete(p, j, s)
    ensures x !in CompletedSteps(j)
  {
    hide CompletedSteps;
  }

  lemma {:induction false} FirstBatch(p: Plan, ids: seq<StepId>)
    requires ids != []
    ensures var batches := Batched(p, ids); batches != [] && batches[0] != [] && batches[0][0] == ids[0]
  {
    if |ids| > 1 {
      FirstBatch(p, ids[..|ids| - 1]);
    }
  }

  lemma {:induction false} FirstChunk(batches: seq<seq<StepId>>)
    requires batches != [] && batches[0] != []
    ensures var chunks := AllChunks(batches); chunks != [] && chunks[0] != [] && chunks[0][0] == batches[0][0]
  {
  }

  /** The first step the writes complete, if they complete one, is `s`. */
  ghost predicate CompletesFirst(ws: seq<Write>, s: StepId) {
    forall k :: 0 <= k < |ws| && Completes(ws[k]) && (forall i :: 0 <= i < k ==> !Completes(ws[i])) ==> ws[k].entry.step == s
  }

  lemma {:induction false} FoldCompletesFirst(j: Log, p: Plan, chunk: seq<StepId>, ok: set<StepId>)
    requires chunk != []
    ensures CompletesFirst(FoldChildren(j, p, chunk, ok), chunk[0])
    ensures (exists w :: w in FoldChildren(j, p, chunk, ok) && Completes(w)) <==> chunk[0] in ok
  {
    hide OpenStep;
    var ws := FoldChildren(j, p, chunk, ok);
    if chunk[0] in ok {
      var open, done := OpenStep(j, p, chunk[0]), Append(StepCompleted(chunk[0]));
      OpeningIsQuiet(j, p, chunk[0]);
      assert forall i :: 0 <= i < |open| ==> ws[i] == open[i] && ws[i] in open;
      assert ws[|open|] == done && done in ws;
    }
  }

  lemma {:induction false} FirstCompleted(edits: seq<Write>, fold: seq<Write>, rest: seq<Write>, s: StepId)
    requires (forall w :: w in edits ==> !Completes(w)) && CompletesFirst(fold, s)
    requires rest != [] ==> exists w :: w in fold && Completes(w)
    ensures CompletesFirst(edits + fold + rest, s)
  {
    var ws, from, to := edits + fold + rest, |edits|, |edits + fold|;
    assert forall i :: 0 <= i < from ==> ws[i] == edits[i] && ws[i] in edits;
    assert forall i :: from <= i < to ==> ws[i] == fold[i - from];
    if rest != [] {
      var w :| w in fold && Completes(w);
      var i :| 0 <= i < |fold| && fold[i] == w;
      assert Completes(ws[from + i]);
    }
    forall k | 0 <= k < |ws| && Completes(ws[k]) && (forall i :: 0 <= i < k ==> !Completes(ws[i]))
      ensures ws[k].entry.step == s
    {
      assert from <= k < to;
      assert forall i :: 0 <= i < k - from ==> fold[i] == ws[from + i];
    }
  }

  /** The first step a wave completes is the one that is next. */
  lemma {:induction false} NextIsCompletedFirst(t: Task, e: Env, p: Plan, s: StepId)
    requires StepIsDue(t, e, p, s) && RunsInWave(p, CompletedSteps(t.d.journal), s)
    ensures CompletesFirst(Do(t, Drive(e)).writes, s)
  {
    hide CompletedSteps, RunsInWave, Incomplete, LastTool, Do, CompletesFirst, Batched, AllChunks, RawPlan.Order, FoldChildren;
    DueStep(t, e, p, s);
    var j, ids := t.d.journal, Incomplete(p, t.d.journal, s);
    NextIsFirst(t, e, p, s);
    FirstBatch(p, ids);
    FirstChunk(Batched(p, ids));
    var chunks := AllChunks(Batched(p, ids));
    var rest := if forall x :: x in chunks[0] ==> x in e.childrenOk then WaveWrites(j, p, chunks[1..], e.childrenOk) else [];
    FoldCompletesFirst(j, p, chunks[0], e.childrenOk);
    FirstCompleted(seq(|chunks[0]|, _ => World(Edited)), FoldChildren(j, p, chunks[0], e.childrenOk), rest, s);
  }
}
