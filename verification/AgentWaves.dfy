/** Which steps of a plan one driven step of Implementing works on, told from the plan's waves, its parallel
    steps and the completed ones alone: a wave of children, or a turn on the next step. */
module AgentWaves {
  import opened Options
  import opened Journal
  import opened Plans
  import opened Sequences
  import opened Agent
  import P = AgentPlanSteps
  import L = AgentPlanLoop
  import O = AgentOutcomes

  // ---------------------------------------------------------------- the steps of a wave

  /** `x` may run beside `s`: a parallel step of the wave `s` is in, not yet completed. */
  predicate Eligible(p: Plan, done: set<StepId>, s: StepId, x: StepId) {
    && (exists w :: 0 <= w < |p.waves| && s in p.waves[w] && x in p.waves[w])
    && x in p.parallel && x !in done
  }

  /** `s` is to be run together with others. */
  ghost predicate RunsInWave(p: Plan, done: set<StepId>, s: StepId) {
    s in p.parallel && exists x :: x != s && Eligible(p, done, s, x)
  }

  lemma {:induction false} InWaves(waves: seq<seq<StepId>>, w: nat, x: StepId)
    requires w < |waves| && x in waves[w]
    ensures x in Flatten(waves)
  {
  }

  lemma {:induction false} WaveIs(waves: seq<seq<StepId>>, s: StepId, x: StepId)
    requires Distinct(Flatten(waves))
    ensures x in WaveOf(waves, s) <==> exists w :: 0 <= w < |waves| && s in waves[w] && x in waves[w]
  {
    hide Distinct, Flatten;
    if waves != [] {
      var rest := waves[1..];
      assert Flatten(waves) == waves[0] + Flatten(rest) by {
        FlattenFirst(waves);
      }
      P.DistinctParts(waves[0], Flatten(rest));
      WaveIs(rest, s, x);
      if w :| 0 <= w < |waves| && s in waves[w] && x in waves[w] {
        if w > 0 {
          assert rest[w - 1] == waves[w];
          InWaves(rest, w - 1, s);
        }
      }
      if w :| 0 <= w < |rest| && s in rest[w] && x in rest[w] {
        assert waves[w + 1] == rest[w];
      }
    }
  }

  lemma {:induction false} FlattenFirst<T>(ss: seq<seq<T>>)
    requires ss != []
    ensures Flatten(ss) == ss[0] + Flatten(ss[1..])
  {
  }

  /** The unfinished rest of the next step's group: the eligible steps, each once, if it is parallel, and it
      alone if it is not. */
  lemma {:induction false} GroupIs(p: Plan, j: Log, s: StepId, x: StepId)
    requires s !in CompletedSteps(j)
    ensures x in Incomplete(p, j, s) <==> if s in p.parallel then Eligible(p, CompletedSteps(j), s, x) else x == s
    ensures Distinct(Incomplete(p, j, s))
  {
    hide CompletedSteps, WaveOf;
    WaveIs(p.waves, s, x);
    P.WaveDistinct(p.waves, s);
    P.KeepDistinct(WaveOf(p.waves, s), p.parallel);
    P.DropDistinct(p.GroupFor(s), CompletedSteps(j));
  }

  lemma {:induction false} OnlyOne(ids: seq<StepId>, s: StepId)
    requires Distinct(ids) && s in ids
    ensures |ids| > 1 <==> exists x :: x != s && x in ids
  {
    var i :| 0 <= i < |ids| && ids[i] == s;
    if |ids| > 1 {
      var k := if i == 0 then 1 else 0;
      assert ids[k] != s && ids[k] in ids;
    }
    if x :| x != s && x in ids {
      var k :| 0 <= k < |ids| && ids[k] == x;
    }
  }

  /** The step is one of a wave if and only if the code runs a group. */
  lemma {:induction false} GroupRuns(p: Plan, j: Log, s: StepId)
    requires s in p.Order() && s !in CompletedSteps(j)
    ensures |Incomplete(p, j, s)| > 1 <==> RunsInWave(p, CompletedSteps(j), s)
  {
    hide CompletedSteps, Incomplete, Eligible;
    var done, ids := CompletedSteps(j), Incomplete(p, j, s);
    GroupIs(p, j, s, s);
    forall x
      ensures x in ids <==> if s in p.parallel then Eligible(p, done, s, x) else x == s
    {
      GroupIs(p, j, s, x);
    }
    if s in p.parallel {
      OwnWave(p, done, s);
    }
    assert s in ids;
    OnlyOne(ids, s);
  }

  lemma {:induction false} OwnWave(p: Plan, done: set<StepId>, s: StepId)
    requires s in p.Order() && s !in done && s in p.parallel
    ensures Eligible(p, done, s, s)
  {
    var w :| 0 <= w < |p.waves| && s in p.waves[w];
  }

  // ---------------------------------------------------------------- which steps the writes are about

  /** The write opens, calls the model for, answers or completes step `x`. */
  predicate About(w: Write, x: StepId) {
    w.Append? && (|| w.entry == Checkpoint(x) || w.entry == StepStarted(x) || w.entry == StepCompleted(x)
                  || w.entry == ModelCall(StepTurn(x)) || (w.entry.StepAnswered? && w.entry.step == x))
  }

  /** What a wave's children are folded back with: no model call, no tool call. */
  predicate IsFold(w: Write) {
    match w
    case Append(e) => e.Checkpoint? || e.StepStarted? || e.StepCompleted? || e.RecoveryNote?
    case Goto(s) => s.Failed?
    case World(ev) => ev.Edited?
    case SavePlan(_) => false
  }

  lemma {:induction false} FoldIsAbout(j: Log, p: Plan, chunk: seq<StepId>, ok: set<StepId>)
    ensures forall w :: w in FoldChildren(j, p, chunk, ok) ==> IsFold(w) && forall x :: About(w, x) ==> x in chunk
  {
    hide IsStarted, HasCheckpoint;
    if chunk != [] && chunk[0] in ok {
      FoldIsAbout(j, p, chunk[1..], ok);
    }
  }

  lemma {:induction false} WaveIsAbout(j: Log, p: Plan, chunks: seq<seq<StepId>>, ok: set<StepId>)
    ensures forall w :: w in WaveWrites(j, p, chunks, ok) ==> IsFold(w) && forall x :: About(w, x) ==> x in Flatten(chunks)
  {
    hide FoldChildren;
    if chunks != [] {
      FoldIsAbout(j, p, chunks[0], ok);
      WaveIsAbout(j, p, chunks[1..], ok);
    }
  }

  lemma {:induction false} SoloIsAbout(t: Task, e: Env, p: Plan, s: StepId)
    ensures forall w, x :: w in SoloStep(t, e, p, s) && About(w, x) ==> x == s
  {
    hide IsStarted, HasCheckpoint, UnprocessedAction, TurnsSinceStart, ToolAndStop;
    assert forall w, x :: w in ToolAndStop(t.d.state, e.tool) ==> !About(w, x) by {
      ToolIsAbout(t.d.state, e.tool);
    }
  }

  lemma {:induction false} ToolIsAbout(st: State, r: ToolOutcome)
    ensures forall w, x :: w in ToolAndStop(st, r) ==> !About(w, x)
  {
  }

  // ---------------------------------------------------------------- the driven step

  /** A planned step is due, and `s` is the first of the plan's steps that is not completed. */
  predicate StepIsDue(t: Task, e: Env, p: Plan, s: StepId) {
    && t.d.state.Implementing? && t.d.plan == Some(p) && !ToolInterrupted(t.d.journal) && e.stillValid
    && exists n :: 0 <= n < |p.Order()| && p.Order()[n] == s && s !in CompletedSteps(t.d.journal)
                   && forall i :: 0 <= i < n ==> p.Order()[i] in CompletedSteps(t.d.journal)
  }

  lemma {:induction false} FirstIsNext(p: Plan, done: set<StepId>, n: nat)
    requires n < |p.Order()| && p.Order()[n] !in done && forall i :: 0 <= i < n ==> p.Order()[i] in done
    ensures p.NextIncomplete(done) == Some(p.Order()[n])
  {
    var r := p.NextIncomplete(done);
    assert p.Order()[n] in p.Order();
    var m :| 0 <= m < |p.Order()| && p.Order()[m] == r.value && r.value !in done && forall i :: 0 <= i < m ==> p.Order()[i] in done;
    assert n == m;
  }

  lemma {:induction false} DueStep(t: Task, e: Env, p: Plan, s: StepId)
    requires StepIsDue(t, e, p, s)
    ensures s in p.Order() && s !in CompletedSteps(t.d.journal)
    ensures Do(t, Drive(e)) ==
      if RunsInWave(p, CompletedSteps(t.d.journal), s)
      then Effect(WaveWrites(t.d.journal, p, AllChunks(Batched(p, Incomplete(p, t.d.journal, s))), e.childrenOk), t.mem, t.fed)
      else Effect(SoloStep(t, e, p, s), t.mem, t.fed)
  {
    hide CompletedSteps, RawPlan.Order, RawPlan.NextIncomplete, RunsInWave, Incomplete, WaveWrites, SoloStep, LastTool;
    var n :| 0 <= n < |p.Order()| && p.Order()[n] == s && s !in CompletedSteps(t.d.journal)
             && forall i :: 0 <= i < n ==> p.Order()[i] in CompletedSteps(t.d.journal);
    FirstIsNext(p, CompletedSteps(t.d.journal), n);
    GroupRuns(p, t.d.journal, s);
  }

  /** A driven step of a planned task opens, calls for and completes only the next step, or only parallel steps
      of that step's wave that are not completed; and these, without calling the model or a tool itself, if
      and only if the next step is one of them and not the only one. */
  lemma {:induction false} WorksOnEligibleSteps(t: Task, e: Env, p: Plan, s: StepId)
    requires StepIsDue(t, e, p, s)
    ensures var done, ws := CompletedSteps(t.d.journal), Do(t, Drive(e)).writes;
      if RunsInWave(p, done, s)
      then forall w :: w in ws ==> IsFold(w) && forall x :: About(w, x) ==> Eligible(p, done, s, x)
      else forall w, x :: w in ws && About(w, x) ==> x == s
  {
    hide CompletedSteps, RunsInWave, Incomplete, WaveWrites, SoloStep, LastTool, Eligible, IsFold, About, StepIsDue, Do;
    var j, ids := t.d.journal, Incomplete(p, t.d.journal, s);
    DueStep(t, e, p, s);
    if RunsInWave(p, CompletedSteps(j), s) {
      WaveIsAbout(j, p, AllChunks(Batched(p, ids)), e.childrenOk);
      forall x | x in Flatten(AllChunks(Batched(p, ids)))
        ensures Eligible(p, CompletedSteps(j), s, x)
      {
        AmongBatches(p, ids, x);
        GroupIs(p, j, s, x);
        InParallel(p, CompletedSteps(j), s);
      }
    } else {
      SoloIsAbout(t, e, p, s);
    }
  }

  lemma {:induction false} InParallel(p: Plan, done: set<StepId>, s: StepId)
    requires RunsInWave(p, done, s)
    ensures s in p.parallel
  {
  }

  lemma {:induction false} AmongBatches(p: Plan, ids: seq<StepId>, x: StepId)
    ensures x in Flatten(AllChunks(Batched(p, ids))) <==> x in ids
  {
    EachStepPlacedOnce(p, ids);
    SameElements(Flatten(AllChunks(Batched(p, ids))), ids);
  }

  // ---------------------------------------------------------------- what a whole wave comes to

  /** What the writes do to the workspace. */
  function Happened(ws: seq<Write>): seq<WorldEvent> {
    if ws == [] then []
    else Happened(ws[..|ws| - 1]) + (if ws[|ws| - 1].World? then [ws[|ws| - 1].event] else [])
  }

  lemma {:induction false} WorldAfter(d: Durable, ws: seq<Write>)
    ensures ApplyAll(d, ws).world == d.world + Happened(ws)
  {
    if ws != [] {
      WorldAfter(d, ws[..|ws| - 1]);
    }
  }

  lemma {:induction false} HappenedConcat(a: seq<Write>, b: seq<Write>)
    ensures Happened(a + b) == Happened(a) + Happened(b)
  {
    if b == [] {
      assert a + b == a;
    } else {
      assert (a + b)[..|a + b| - 1] == a + b[..|b| - 1];
      HappenedConcat(a, b[..|b| - 1]);
    }
  }

  lemma {:induction false} NothingHappened(ws: seq<Write>)
    requires forall w :: w in ws ==> !w.World?
    ensures Happened(ws) == []
  {
    if ws != [] {
      NothingHappened(ws[..|ws| - 1]);
    }
  }

  lemma {:induction false} EditsHappen(n: nat)
    ensures Happened(seq(n, _ => World(Edited))) == seq(n, _ => Edited)
    ensures Entries(seq(n, _ => World(Edited))) == []
  {
    var ws := seq(n, _ => World(Edited));
    if n > 0 {
      assert ws[..|ws| - 1] == seq(n - 1, _ => World(Edited));
      EditsHappen(n - 1);
    }
  }

  lemma {:induction false} NoneCompleted(j: Log, ws: seq<Write>, x: StepId)
    requires Append(StepCompleted(x)) !in ws
    ensures P.Completions(j + Entries(ws), x) == P.Completions(j, x)
  {
    CountKept(j, ws, (e: Entry) => e == StepCompleted(x));
  }

  lemma {:induction false} OpeningIsQuiet(j: Log, p: Plan, s: StepId)
    ensures forall w :: w in OpenStep(j, p, s) ==> w.Append? && !w.entry.StepCompleted?
  {
    hide IsStarted, HasCheckpoint;
  }

  lemma {:induction false} OpeningCompletesNone(j: Log, now: Log, p: Plan, s: StepId, x: StepId)
    ensures P.Completions(now + Entries(OpenStep(j, p, s)), x) == P.Completions(now, x)
    ensures Happened(OpenStep(j, p, s)) == []
  {
    hide OpenStep, P.Completions;
    OpeningIsQuiet(j, p, s);
    NoneCompleted(now, OpenStep(j, p, s), x);
    NothingHappened(OpenStep(j, p, s));
  }

  /** One write list after another, on the journal and on the workspace. */
  lemma {:induction false} OneAfterAnother(now: Log, a: seq<Write>, b: seq<Write>)
    ensures now + Entries(a + b) == (now + Entries(a)) + Entries(b)
    ensures Happened(a + b) == Happened(a) + Happened(b)
  {
    EntriesConcat(a, b);
    HappenedConcat(a, b);
  }

  lemma {:induction false} OneMoreCompletion(j: Log, s: StepId, x: StepId)
    ensures P.Completions(j + [StepCompleted(s)], x) == P.Completions(j, x) + if s == x then 1 else 0
  {
    assert (j + [StepCompleted(s)])[..|j|] == j;
  }

  lemma {:induction false} CompletedOnce(j: Log, s: StepId, x: StepId)
    ensures var ws := [Append(StepCompleted(s))];
      P.Completions(j + Entries(ws), x) == P.Completions(j, x) + (if s == x then 1 else 0) && Happened(ws) == []
  {
    hide P.Completions;
    EntriesFew(Append(StepCompleted(s)), Append(StepCompleted(s)));
    NothingHappened([Append(StepCompleted(s))]);
    OneMoreCompletion(j, s, x);
  }

  lemma {:induction false} Multiplicity<T>(s: seq<T>, x: T)
    requires s != []
    ensures multiset(s)[x] == (if s[0] == x then 1 else 0) + multiset(s[1..])[x]
  {
    assert s == [s[0]] + s[1..];
  }

  lemma {:induction false} FoldNone(j: Log, now: Log, p: Plan, ok: set<StepId>)
    ensures FoldChildren(j, p, [], ok) == [] && now + Entries([]) == now && Happened([]) == []
  {
  }

  lemma {:induction false} FoldOne(j: Log, now: Log, p: Plan, s: StepId, x: StepId)
    ensures var ws := OpenStep(j, p, s) + [Append(StepCompleted(s))];
      P.Completions(now + Entries(ws), x) == P.Completions(now, x) + (if s == x then 1 else 0) && Happened(ws) == []
  {
    hide OpenStep, P.Completions, Entries, Happened;
    var open := OpenStep(j, p, s);
    OneAfterAnother(now, open, [Append(StepCompleted(s))]);
    OpeningCompletesNone(j, now, p, s, x);
    CompletedOnce(now + Entries(open), s, x);
  }

  /** Folding back children that all completed completes each once, and changes nothing in the workspace. */
  lemma {:induction false} FoldCompletes(j: Log, now: Log, p: Plan, chunk: seq<StepId>, ok: set<StepId>, x: StepId)
    requires forall s :: s in chunk ==> s in ok
    ensures var ws := FoldChildren(j, p, chunk, ok);
      P.Completions(now + Entries(ws), x) == P.Completions(now, x) + multiset(chunk)[x] && Happened(ws) == []
    decreases |chunk|
  {
    hide OpenStep, P.Completions, Entries, Happened;
    if chunk == [] {
      FoldNone(j, now, p, ok);
    } else {
      var first := OpenStep(j, p, chunk[0]) + [Append(StepCompleted(chunk[0]))];
      var rest := FoldChildren(j, p, chunk[1..], ok);
      FoldOne(j, now, p, chunk[0], x);
      FoldCompletes(j, now + Entries(first), p, chunk[1..], ok, x);
      OneAfterAnother(now, first, rest);
      Multiplicity(chunk, x);
      assert FoldChildren(j, p, chunk, ok) == first + rest;
    }
  }

  lemma {:induction false} ChunkCompletes(j: Log, now: Log, p: Plan, chunk: seq<StepId>, ok: set<StepId>, x: StepId)
    requires forall s :: s in chunk ==> s in ok
    ensures var ws := seq(|chunk|, _ => World(Edited)) + FoldChildren(j, p, chunk, ok);
      && P.Completions(now + Entries(ws), x) == P.Completions(now, x) + multiset(chunk)[x]
      && Happened(ws) == seq(|chunk|, _ => Edited)
  {
    hide FoldChildren, P.Completions, Entries, Happened;
    EditsHappen(|chunk|);
    FoldCompletes(j, now, p, chunk, ok, x);
    OneAfterAnother(now, seq(|chunk|, _ => World(Edited)), FoldChildren(j, p, chunk, ok));
    assert now + [] == now;
  }

  lemma {:induction false} WaveCompletes(j: Log, now: Log, p: Plan, chunks: seq<seq<StepId>>, ok: set<StepId>, x: StepId)
    requires forall s :: s in Flatten(chunks) ==> s in ok
    ensures var ws := WaveWrites(j, p, chunks, ok);
      && P.Completions(now + Entries(ws), x) == P.Completions(now, x) + multiset(Flatten(chunks))[x]
      && Happened(ws) == seq(|Flatten(chunks)|, _ => Edited)
    decreases |chunks|
  {
    hide FoldChildren, P.Completions, WaveWrites, Flatten, Entries, Happened;
    if chunks == [] {
      L.NoChunks(j, p, ok);
      FoldNone(j, now, p, ok);
    } else {
      var first := seq(|chunks[0]|, _ => World(Edited)) + FoldChildren(j, p, chunks[0], ok);
      var rest := WaveWrites(j, p, chunks[1..], ok);
      L.ChunksShape(j, p, chunks, ok);
      ChunkCompletes(j, now, p, chunks[0], ok, x);
      WaveCompletes(j, now + Entries(first), p, chunks[1..], ok, x);
      OneAfterAnother(now, first, rest);
    }
  }

  /** The chunks a wave is run in hold the eligible steps, each once. */
  lemma {:induction false} ChunksHoldEligible(p: Plan, j: Log, s: StepId, x: StepId)
    requires RunsInWave(p, CompletedSteps(j), s) && s !in CompletedSteps(j)
    ensures var flat, done := Flatten(AllChunks(Batched(p, Incomplete(p, j, s)))), CompletedSteps(j);
      && (forall y :: y in flat <==> Eligible(p, done, s, y))
      && multiset(flat)[x] == (if Eligible(p, done, s, x) then 1 else 0)
      && |flat| == |set y | y in p.Order() && Eligible(p, done, s, y)|
  {
    hide CompletedSteps, RunsInWave, Incomplete, Eligible, Distinct, RawPlan.Order;
    var done, ids := CompletedSteps(j), Incomplete(p, j, s);
    InParallel(p, done, s);
    EachStepPlacedOnce(p, ids);
    SameElements(Flatten(AllChunks(Batched(p, ids))), ids);
    GroupIs(p, j, s, x);
    forall y
      ensures y in ids <==> Eligible(p, done, s, y)
    {
      GroupIs(p, j, s, y);
    }
    EligibleOnce(p, done, s, ids, x);
  }

  /** A wave whose children all complete goes on implementing: each eligible step is completed once more, no
      other one is, and each has edited once. If any child does not complete, the task fails. */
  lemma {:induction false} WaveLeads(t: Task, e: Env, p: Plan, s: StepId, x: StepId)
    requires StepIsDue(t, e, p, s) && RunsInWave(p, CompletedSteps(t.d.journal), s)
    ensures var done, t' := CompletedSteps(t.d.journal), Step(t, Run(Drive(e)));
      && t'.mem == t.mem
      && if forall y :: Eligible(p, done, s, y) ==> y in e.childrenOk
         then t'.d.state.Implementing?
              && P.Completions(t'.d.journal, x) == P.Completions(t.d.journal, x) + (if Eligible(p, done, s, x) then 1 else 0)
              && t'.d.world == t.d.world + seq(|set y | y in p.Order() && Eligible(p, done, s, y)|, _ => Edited)
         else t'.d.state.Failed?
  {
    hide CompletedSteps, RunsInWave, Incomplete, WaveWrites, SoloStep, LastTool, Eligible, Do, P.Completions, ApplyAll, RawPlan.Order,
         Flatten, AllChunks, Batched;
    var j := t.d.journal;
    var chunks := AllChunks(Batched(p, Incomplete(p, j, s)));
    DueStep(t, e, p, s);
    ChunksHoldEligible(p, j, s, x);
    ChunksLead(t.d, p, chunks, e.childrenOk, x);
  }

  lemma {:induction false} ChunksLead(d: Durable, p: Plan, chunks: seq<seq<StepId>>, ok: set<StepId>, x: StepId)
    ensures var d' := ApplyAll(d, WaveWrites(d.journal, p, chunks, ok));
      if forall y :: y in Flatten(chunks) ==> y in ok
      then d'.state == d.state
           && P.Completions(d'.journal, x) == P.Completions(d.journal, x) + multiset(Flatten(chunks))[x]
           && d'.world == d.world + seq(|Flatten(chunks)|, _ => Edited)
      else d'.state.Failed?
  {
    hide WaveWrites, P.Completions, ApplyAll, Happened, Entries, Flatten;
    var ws := WaveWrites(d.journal, p, chunks, ok);
    L.WaveEnds(d, [], d.journal, p, chunks, ok);
    assert [] + ws == ws;
    if forall y :: y in Flatten(chunks) ==> y in ok {
      L.GoesOn(d, ws);
      JournalAfter(d, ws);
      WorldAfter(d, ws);
      WaveCompletes(d.journal, d.journal, p, chunks, ok, x);
    }
  }

  /** The step was opened: started, and with its checkpoint taken if the plan asks for one. */
  predicate IsOpen(j: Log, p: Plan, s: StepId) {
    IsStarted(j, s) && (s in p.checkpoints ==> HasCheckpoint(j, s))
  }

  /** Steps are opened as they are folded back, unless they were before. */
  predicate Opens(j: Log, p: Plan, ws: seq<Write>, s: StepId) {
    && (IsStarted(j, s) || Append(StepStarted(s)) in ws)
    && (s in p.checkpoints ==> HasCheckpoint(j, s) || Append(Checkpoint(s)) in ws)
  }

  lemma {:induction false} FoldOpens(j: Log, p: Plan, chunk: seq<StepId>, ok: set<StepId>)
    requires forall s :: s in chunk ==> s in ok
    ensures forall s :: s in chunk ==> Opens(j, p, FoldChildren(j, p, chunk, ok), s)
  {
    hide IsStarted, HasCheckpoint;
    if chunk != [] {
      FoldOpens(j, p, chunk[1..], ok);
      assert forall s :: s in chunk ==> s == chunk[0] || s in chunk[1..];
    }
  }

  lemma {:induction false} WaveOpens(j: Log, p: Plan, chunks: seq<seq<StepId>>, ok: set<StepId>)
    requires forall s :: s in Flatten(chunks) ==> s in ok
    ensures forall s :: s in Flatten(chunks) ==> Opens(j, p, WaveWrites(j, p, chunks, ok), s)
  {
    hide IsStarted, HasCheckpoint, FoldChildren;
    if chunks != [] {
      L.ChunksShape(j, p, chunks, ok);
      FoldOpens(j, p, chunks[0], ok);
      WaveOpens(j, p, chunks[1..], ok);
    }
  }

  lemma {:induction false} OpenAfter(j: Log, p: Plan, ws: seq<Write>, s: StepId)
    requires Opens(j, p, ws, s)
    ensures IsOpen(j + Entries(ws), p, s)
  {
    EntriesIn(ws);
    var j' := j + Entries(ws);
    if IsStarted(j, s) {
      var i :| 0 <= i < |j| && j[i] == StepStarted(s);
      assert j'[i] == StepStarted(s);
    } else {
      var i :| 0 <= i < |Entries(ws)| && Entries(ws)[i] == StepStarted(s);
      assert j'[|j| + i] == StepStarted(s);
    }
    if s in p.checkpoints {
      if HasCheckpoint(j, s) {
        var i :| 0 <= i < |j| && j[i] == Checkpoint(s);
        assert j'[i] == Checkpoint(s);
      } else {
        var i :| 0 <= i < |Entries(ws)| && Entries(ws)[i] == Checkpoint(s);
        assert j'[|j| + i] == Checkpoint(s);
      }
    }
  }

  /** And each of them has its start in the journal, and its checkpoint if the plan asks for one. */
  lemma {:induction false} WaveOpensItsSteps(t: Task, e: Env, p: Plan, s: StepId, x: StepId)
    requires StepIsDue(t, e, p, s) && RunsInWave(p, CompletedSteps(t.d.journal), s)
    requires forall y :: Eligible(p, CompletedSteps(t.d.journal), s, y) ==> y in e.childrenOk
    requires Eligible(p, CompletedSteps(t.d.journal), s, x)
    ensures IsOpen(Step(t, Run(Drive(e))).d.journal, p, x)
  {
    hide CompletedSteps, RunsInWave, Incomplete, WaveWrites, SoloStep, LastTool, Eligible, Do, ApplyAll, RawPlan.Order, Flatten,
         AllChunks, Batched, IsOpen, Opens;
    var j := t.d.journal;
    var chunks := AllChunks(Batched(p, Incomplete(p, j, s)));
    DueStep(t, e, p, s);
    ChunksHoldEligible(p, j, s, x);
    WaveOpens(j, p, chunks, e.childrenOk);
    JournalAfter(t.d, WaveWrites(j, p, chunks, e.childrenOk));
    OpenAfter(j, p, WaveWrites(j, p, chunks, e.childrenOk), x);
  }

  lemma {:induction false} EligibleOnce(p: Plan, done: set<StepId>, s: StepId, ids: seq<StepId>, x: StepId)
    requires Distinct(ids) && forall y :: y in ids <==> Eligible(p, done, s, y)
    ensures multiset(ids)[x] == if Eligible(p, done, s, x) then 1 else 0
    ensures |ids| == |set y | y in p.Order() && Eligible(p, done, s, y)|
  {
    hide Distinct, Eligible;
    P.DistinctOnce(ids);
    assert x in multiset(ids) <==> x in ids;
    forall y | Eligible(p, done, s, y)
      ensures y in p.Order()
    {
      EligibleListed(p, done, s, y);
    }
    DistinctSize(ids);
    assert (set y | y in p.Order() && Eligible(p, done, s, y)) == set y | y in ids;
  }

  lemma {:induction false} EligibleListed(p: Plan, done: set<StepId>, s: StepId, y: StepId)
    requires Eligible(p, done, s, y)
    ensures y in p.Order()
  {
  }

  lemma {:induction false} DistinctSize(ids: seq<StepId>)
    requires Distinct(ids)
    ensures |ids| == |set y | y in ids|
  {
    if ids != [] {
      var head, tail := ids[0], ids[1..];
      assert ids == [head] + tail;
      P.DistinctParts([head], tail);
      DistinctSize(tail);
      assert (set y | y in ids) == (set y | y in tail) + {head};
    }
  }

  // ---------------------------------------------------------------- a turn on one step

  lemma {:induction false} OpeningLeads(d: Durable, p: Plan, s: StepId)
    ensures ApplyAll(d, OpenStep(d.journal, p, s)) ==
      d.(journal := d.journal + (if s in p.checkpoints && !HasCheckpoint(d.journal, s) then [Checkpoint(s)] else [])
                              + (if IsStarted(d.journal, s) then [] else [StepStarted(s)]))
  {
    hide HasCheckpoint, IsStarted;
    var ws := OpenStep(d.journal, p, s);
    if ws == [] {
      assert ApplyAll(d, ws) == d;
    } else {
      ApplyFew(d, Append(Checkpoint(s)), Append(StepStarted(s)), Append(StepStarted(s)));
      ApplyFew(d, Append(StepStarted(s)), Append(StepStarted(s)), Append(StepStarted(s)));
    }
  }

  /** Acting on what the model decided for a step: a tool call out of the plan's scope is noted first. */
  lemma {:induction false} ActionLeads(d: Durable, s: StepId, action: StepAction, e: Env)
    requires d.state.Implementing?
    ensures var d' := ApplyAll(d, ActOn(Implementing, s, action, e));
      && d'.state == (match action
                      case StepAsk => WaitingForUser
                      case StepFinish => Implementing
                      case StepTool => if e.tool.Executed? then Implementing else if e.tool.AskRequired? then WaitingForPermission else Failed)
      && d'.journal == d.journal + (match action
                                    case StepAsk => []
                                    case StepFinish => [StepCompleted(s)]
                                    case StepTool => (if e.outOfScope then [ScopeExpansion] else []) + O.ToolLog(Implementing, e.tool))
      && d'.world == d.world + (if action.StepTool? && e.tool.Executed? then [Edited] else [])
  {
    hide ToolAndStop, O.ToolLog;
    match action
    case StepAsk => ApplyFew(d, Goto(WaitingForUser), Goto(WaitingForUser), Goto(WaitingForUser));
    case StepFinish => ApplyFew(d, Append(StepCompleted(s)), Goto(Failed), Goto(Failed));
    case StepTool =>
      var note := if e.outOfScope then [Append(ScopeExpansion)] else [];
      ApplyFew(d, Append(ScopeExpansion), Goto(Failed), Goto(Failed));
      assert ApplyAll(d, []) == d;
      ApplyConcat(d, note, ToolAndStop(Implementing, e.tool));
      O.ToolCallLeads(ApplyAll(d, note), e.tool);
  }

  /** What a turn decides for the step: what is stored, or else what the model answers. */
  function Decides(j: Log, s: StepId, r: Reply): Option<StepAction> {
    match UnprocessedAction(j, s)
    case Some(action) => Some(action)
    case None =>
      match r
      case UseTool => Some(StepTool)
      case Finish => Some(StepFinish)
      case Ask => Some(StepAsk)
      case _ => None
  }

  /** A turn on the next step, when it runs alone: a step with its turns used up is completed; otherwise what is
      stored for it is done, or the model is asked. A question waits for the user, a finished step is
      completed, an answer that cannot be read fails the task. */
  lemma {:induction false} PlannedTurnLeads(t: Task, e: Env, p: Plan, s: StepId)
    requires StepIsDue(t, e, p, s) && !RunsInWave(p, CompletedSteps(t.d.journal), s)
    ensures var t' := Step(t, Run(Drive(e))); var j := t.d.journal;
      var over, asks := TurnsSinceStart(j, s) >= 3, UnprocessedAction(j, s) == None;
      var decided := Decides(j, s, e.reply); var runs := decided == Some(StepTool) && e.tool.Executed?;
      && t'.mem == t.mem
      && (t'.d.state.Implementing? <==> over || decided == Some(StepFinish) || runs)
      && (t'.d.state.WaitingForUser? <==> !over && decided == Some(StepAsk))
      && (t'.d.state.WaitingForPermission? <==> !over && decided == Some(StepTool) && e.tool.AskRequired?)
      && (t'.d.state.Failed? <==>
            !over && (decided == None || (decided == Some(StepTool) && (e.tool.Denied? || e.tool.UnknownTool?))))
      && t'.d.world == t.d.world + (if !over && runs then [Edited] else [])
      && t'.d.journal ==
         j + (if s in p.checkpoints && !HasCheckpoint(j, s) then [Checkpoint(s)] else [])
           + (if IsStarted(j, s) then [] else [StepStarted(s)])
           + (if !over && asks then [ModelCall(StepTurn(s))] else [])
           + (if !over && asks && decided.Some? then [StepAnswered(s, decided.value)] else [])
           + (if over || decided == Some(StepFinish) then [StepCompleted(s)]
              else match decided
                   case None => [RecoveryNote]
                   case Some(StepTool) => (if e.outOfScope then [ScopeExpansion] else []) + O.ToolLog(Implementing, e.tool)
                   case _ => [])
  {
    hide CompletedSteps, UnprocessedAction, TurnsSinceStart, OpenStep, RunsInWave, ActOn, SoloStep, IsStarted, HasCheckpoint, LastTool, O.ToolLog, Do;
    var j := t.d.journal;
    DueStep(t, e, p, s);
    P.SoloShape(t, e, p, s);
    OpeningLeads(t.d, p, s);
    var open := OpenStep(j, p, s);
    var begun := ApplyAll(t.d, open);
    ApplyConcat(t.d, open, P.AfterOpen(t, e, s));
    TurnLeads(t, begun, e, s);
  }

  /** What follows the opening, from wherever it leaves the task. */
  lemma {:induction false} TurnLeads(t: Task, d: Durable, e: Env, s: StepId)
    requires t.d.state.Implementing? && d.state.Implementing?
    ensures var d' := ApplyAll(d, P.AfterOpen(t, e, s)); var j := t.d.journal;
      var over, asks := TurnsSinceStart(j, s) >= 3, UnprocessedAction(j, s) == None;
      var decided := Decides(j, s, e.reply); var runs := decided == Some(StepTool) && e.tool.Executed?;
      && (d'.state == if over || decided == Some(StepFinish) || runs then Implementing
                      else if decided == Some(StepAsk) then WaitingForUser
                      else if decided == Some(StepTool) && e.tool.AskRequired? then WaitingForPermission
                      else Failed)
      && d'.world == d.world + (if !over && runs then [Edited] else [])
      && d'.journal ==
         d.journal + (if !over && asks then [ModelCall(StepTurn(s))] else [])
           + (if !over && asks && decided.Some? then [StepAnswered(s, decided.value)] else [])
           + (if over || decided == Some(StepFinish) then [StepCompleted(s)]
              else match decided
                   case None => [RecoveryNote]
                   case Some(StepTool) => (if e.outOfScope then [ScopeExpansion] else []) + O.ToolLog(Implementing, e.tool)
                   case _ => [])
  {
    hide UnprocessedAction, TurnsSinceStart, ActOn, O.ToolLog;
    var j := t.d.journal;
    var call := Append(ModelCall(StepTurn(s)));
    if TurnsSinceStart(j, s) >= 3 {
      ApplyFew(d, Append(StepCompleted(s)), call, call);
    } else if UnprocessedAction(j, s).Some? {
      ActionLeads(d, s, UnprocessedAction(j, s).value, e);
    } else if e.reply.Unavailable? || e.reply.Malformed? {
      assert [call] + FAILING == [call, FAILING[0], FAILING[1]];
      ApplyFew(d, call, FAILING[0], FAILING[1]);
    } else {
      var action := ActionOf(e.reply);
      var turn := [call, Append(StepAnswered(s, action))];
      ApplyFew(d, turn[0], turn[1], turn[1]);
      ApplyConcat(d, turn, ActOn(t.d.state, s, action, e));
      ActionLeads(ApplyAll(d, turn), s, action, e);
    }
  }

  // ---------------------------------------------------------------- which children run at once

  /** The chunk may run at once: not too many steps, and no file named by two of them. */
  predicate RunsAtOnce(p: Plan, chunk: seq<StepId>) {
    0 < |chunk| <= MAX_PARALLEL_CHILDREN && ConflictFree(p, chunk)
  }

  lemma {:induction false} ChunksRunAtOnce(p: Plan, batch: seq<StepId>)
    requires ConflictFree(p, batch)
    ensures forall c :: c in Chunks(batch) ==> RunsAtOnce(p, c)
  {
    hide RawPlan.Conflict;
    if |batch| > MAX_PARALLEL_CHILDREN {
      var rest := batch[MAX_PARALLEL_CHILDREN..];
      assert forall i :: 0 <= i < |rest| ==> rest[i] == batch[i + MAX_PARALLEL_CHILDREN];
      ChunksRunAtOnce(p, rest);
    }
  }

  lemma {:induction false} AllRunAtOnce(p: Plan, batches: seq<seq<StepId>>)
    requires forall k :: 0 <= k < |batches| ==> ConflictFree(p, batches[k])
    ensures forall c :: c in AllChunks(batches) ==> RunsAtOnce(p, c)
  {
    hide ConflictFree, Chunks;
    if batches != [] {
      ChunksRunAtOnce(p, batches[0]);
      assert forall k :: 0 <= k < |batches[1..]| ==> batches[1..][k] == batches[k + 1];
      AllRunAtOnce(p, batches[1..]);
    }
  }

  /** No more than `n` edits in a row. */
  ghost predicate AtMostInARow(ws: seq<Write>, n: nat) {
    forall i :: 0 <= i < |ws| - n && ws[i].World? ==> exists k :: i < k <= i + n && !ws[k].World?
  }

  /** Between the completions of two steps of which both may touch `file` there is an edit. */
  ghost predicate TakeTurns(p: Plan, ws: seq<Write>, a: StepId, b: StepId, file: string) {
    forall i, k :: 0 <= i < k < |ws| && ws[i] == Append(StepCompleted(a)) && ws[k] == Append(StepCompleted(b))
                   && a in p.targets && b in p.targets && file in p.targets[a] && file in p.targets[b]
                   ==> exists m :: i < m < k && ws[m] == World(Edited)
  }

  lemma {:induction false} FoldHasNoEdit(j: Log, p: Plan, chunk: seq<StepId>, ok: set<StepId>)
    ensures var fold := FoldChildren(j, p, chunk, ok);
      && (forall w :: w in fold ==> !w.World?) && (chunk != [] ==> fold != [])
      && forall x :: Append(StepCompleted(x)) in fold ==> x in chunk
  {
    hide IsStarted, HasCheckpoint;
    if chunk != [] && chunk[0] in ok {
      FoldHasNoEdit(j, p, chunk[1..], ok);
    }
  }

  lemma {:induction false} InARow(edits: seq<Write>, fold: seq<Write>, rest: seq<Write>, n: nat)
    requires |edits| <= n && fold != [] && (forall w :: w in fold ==> !w.World?) && AtMostInARow(rest, n)
    ensures AtMostInARow(edits + fold + rest, n)
  {
    var ws, from := edits + fold + rest, |edits + fold|;
    assert forall k :: |edits| <= k < from ==> ws[k] == fold[k - |edits|];
    forall i | 0 <= i < |ws| - n && ws[i].World?
      ensures exists k :: i < k <= i + n && !ws[k].World?
    {
      if i >= from {
        assert rest[i - from] == ws[i];
        var k :| i - from < k <= i - from + n && !rest[k].World?;
        assert ws[from + k] == rest[k];
      } else {
        assert !ws[|edits|].World?;
      }
    }
  }

  lemma {:induction false} Turns(p: Plan, chunk: seq<StepId>, edits: seq<Write>, fold: seq<Write>, rest: seq<Write>,
                                 a: StepId, b: StepId, file: string)
    requires a != b && RunsAtOnce(p, chunk) && TakeTurns(p, rest, a, b, file)
    requires (forall w :: w in edits ==> !w.Append?) && (rest != [] ==> rest[0] == World(Edited))
    requires forall x :: Append(StepCompleted(x)) in fold ==> x in chunk
    ensures TakeTurns(p, edits + fold + rest, a, b, file)
  {
    var ws, from := edits + fold + rest, |edits + fold|;
    assert forall i :: 0 <= i < |edits| ==> ws[i] == edits[i];
    forall i, k | 0 <= i < k < |ws| && ws[i] == Append(StepCompleted(a)) && ws[k] == Append(StepCompleted(b))
                  && a in p.targets && b in p.targets && file in p.targets[a] && file in p.targets[b]
      ensures exists m :: i < m < k && ws[m] == World(Edited)
    {
      assert i >= |edits|;
      if i >= from {
        assert rest[i - from] == ws[i] && rest[k - from] == ws[k];
        var m :| i - from < m < k - from && rest[m] == World(Edited);
        assert ws[from + m] == rest[m];
      } else if k >= from {
        assert ws[from] == rest[0];
      } else {
        assert ws[i] == fold[i - |edits|] && ws[k] == fold[k - |edits|];
        assert Append(StepCompleted(a)) in fold && Append(StepCompleted(b)) in fold;
        BothInChunk(p, chunk, a, b, file);
        assert false;
      }
    }
  }

  lemma {:induction false} BothInChunk(p: Plan, chunk: seq<StepId>, a: StepId, b: StepId, file: string)
    requires a != b && a in chunk && b in chunk && ConflictFree(p, chunk)
    ensures !(a in p.targets && b in p.targets && file in p.targets[a] && file in p.targets[b])
  {
    var i :| 0 <= i < |chunk| && chunk[i] == a;
    var k :| 0 <= k < |chunk| && chunk[k] == b;
    assert !p.Conflict(chunk[if i < k then i else k], chunk[if i < k then k else i]);
    assert file in p.Targets(a) && file in p.Targets(b) ==> file in p.Targets(a) * p.Targets(b) && file in p.Targets(b) * p.Targets(a);
  }

  lemma {:induction false} WaveTakesTurns(j: Log, p: Plan, chunks: seq<seq<StepId>>, ok: set<StepId>, a: StepId, b: StepId, file: string)
    requires a != b && forall c :: c in chunks ==> RunsAtOnce(p, c)
    ensures var ws := WaveWrites(j, p, chunks, ok);
      AtMostInARow(ws, MAX_PARALLEL_CHILDREN) && TakeTurns(p, ws, a, b, file) && (ws != [] ==> ws[0] == World(Edited))
    decreases |chunks|
  {
    hide FoldChildren, AtMostInARow, TakeTurns, RunsAtOnce;
    if chunks == [] {
      NoWrites(p, a, b, file);
    } else {
      var edits := seq(|chunks[0]|, _ => World(Edited));
      var fold := FoldChildren(j, p, chunks[0], ok);
      var rest := if forall s :: s in chunks[0] ==> s in ok then WaveWrites(j, p, chunks[1..], ok) else [];
      NoWrites(p, a, b, file);
      FoldHasNoEdit(j, p, chunks[0], ok);
      WaveTakesTurns(j, p, chunks[1..], ok, a, b, file);
      assert 0 < |chunks[0]| <= MAX_PARALLEL_CHILDREN by {
        assert RunsAtOnce(p, chunks[0]);
        AtOnceMeans(p, chunks[0]);
      }
      InARow(edits, fold, rest, MAX_PARALLEL_CHILDREN);
      Turns(p, chunks[0], edits, fold, rest, a, b, file);
      assert WaveWrites(j, p, chunks, ok) == edits + fold + rest;
    }
  }

  lemma {:induction false} AtOnceMeans(p: Plan, chunk: seq<StepId>)
    requires RunsAtOnce(p, chunk)
    ensures 0 < |chunk| <= MAX_PARALLEL_CHILDREN
  {
  }

  lemma {:induction false} NoWrites(p: Plan, a: StepId, b: StepId, file: string)
    ensures AtMostInARow([], MAX_PARALLEL_CHILDREN) && TakeTurns(p, [], a, b, file)
  {
  }

  /** How many steps the writes complete. */
  function Done(ws: seq<Write>): nat {
    if ws == [] then 0
    else Done(ws[..|ws| - 1]) + (if ws[|ws| - 1].Append? && ws[|ws| - 1].entry.StepCompleted? then 1 else 0)
  }

  lemma {:induction false} DoneConcat(a: seq<Write>, b: seq<Write>)
    ensures Done(a + b) == Done(a) + Done(b)
  {
    if b == [] {
      assert a + b == a;
    } else {
      assert (a + b)[..|a + b| - 1] == a + b[..|b| - 1];
      DoneConcat(a, b[..|b| - 1]);
    }
  }

  lemma {:induction false} NothingDone(ws: seq<Write>)
    requires forall w :: w in ws ==> !(w.Append? && w.entry.StepCompleted?)
    ensures Done(ws) == 0
  {
    if ws != [] {
      NothingDone(ws[..|ws| - 1]);
    }
  }

  /** At no time are more steps completed than children have edited. */
  ghost predicate EditsFirst(ws: seq<Write>) {
    forall n :: 0 <= n <= |ws| ==> Done(ws[..n]) <= |Happened(ws[..n])|
  }

  lemma {:induction false} EditsFirstConcat(a: seq<Write>, b: seq<Write>)
    requires EditsFirst(a) && EditsFirst(b)
    ensures EditsFirst(a + b)
  {
    hide Done, Happened;
    assert a[..|a|] == a;
    forall n | 0 <= n <= |a + b|
      ensures Done((a + b)[..n]) <= |Happened((a + b)[..n])|
    {
      if n <= |a| {
        assert (a + b)[..n] == a[..n];
      } else {
        assert (a + b)[..n] == a + b[..n - |a|];
        DoneConcat(a, b[..n - |a|]);
        HappenedConcat(a, b[..n - |a|]);
      }
    }
  }

  lemma {:induction false} FoldDone(j: Log, p: Plan, chunk: seq<StepId>, ok: set<StepId>)
    ensures Done(FoldChildren(j, p, chunk, ok)) <= |chunk|
  {
    hide OpenStep, Done;
    if chunk == [] || chunk[0] !in ok {
      NothingDone(FoldChildren(j, p, chunk, ok));
    } else {
      var open, done, rest := OpenStep(j, p, chunk[0]), [Append(StepCompleted(chunk[0]))], FoldChildren(j, p, chunk[1..], ok);
      OpeningIsQuiet(j, p, chunk[0]);
      NothingDone(open);
      OneDone(done);
      DoneConcat(open, done);
      DoneConcat(open + done, rest);
      FoldDone(j, p, chunk[1..], ok);
    }
  }

  lemma {:induction false} OneDone(ws: seq<Write>)
    requires |ws| == 1
    ensures Done(ws) <= 1
  {
    assert Done(ws[..0]) == 0;
  }

  lemma {:induction false} ChunkEditsFirst(edits: seq<Write>, fold: seq<Write>, n: nat)
    requires (forall w :: w in edits ==> !w.Append?) && |Happened(edits)| == n && Done(fold) <= n
    ensures EditsFirst(edits + fold)
  {
    hide Done, Happened;
    var ws := edits + fold;
    forall k | 0 <= k <= |ws|
      ensures Done(ws[..k]) <= |Happened(ws[..k])|
    {
      if k <= |edits| {
        assert ws[..k] == edits[..k];
        NothingDone(ws[..k]);
      } else {
        var part := fold[..k - |edits|];
        assert ws[..k] == edits + part && fold == part + fold[k - |edits|..];
        DoneConcat(part, fold[k - |edits|..]);
        NothingDone(edits);
        DoneConcat(edits, part);
        HappenedConcat(edits, part);
      }
    }
  }

  lemma {:induction false} WaveEditsFirst(j: Log, p: Plan, chunks: seq<seq<StepId>>, ok: set<StepId>)
    ensures EditsFirst(WaveWrites(j, p, chunks, ok))
    decreases |chunks|
  {
    hide FoldChildren, EditsFirst, Done, Happened;
    NoWriteEditsFirst();
    if chunks != [] {
      var edits := seq(|chunks[0]|, _ => World(Edited));
      var fold := FoldChildren(j, p, chunks[0], ok);
      EditsHappen(|chunks[0]|);
      FoldDone(j, p, chunks[0], ok);
      ChunkEditsFirst(edits, fold, |chunks[0]|);
      WaveEditsFirst(j, p, chunks[1..], ok);
      EditsFirstConcat(edits + fold, if forall s :: s in chunks[0] ==> s in ok then WaveWrites(j, p, chunks[1..], ok) else []);
    }
  }

  lemma {:induction false} NoWriteEditsFirst()
    ensures EditsFirst([])
  {
  }

  /** In a wave at most four children edit before any of them is folded back, and two steps that name a common
      file never run at once: the second edits after the first was completed. No step is completed before its child edited. */
  lemma {:induction false} ChildrenTakeTurns(t: Task, e: Env, p: Plan, s: StepId, a: StepId, b: StepId, file: string)
    requires StepIsDue(t, e, p, s) && RunsInWave(p, CompletedSteps(t.d.journal), s) && a != b
    ensures var ws := Do(t, Drive(e)).writes; AtMostInARow(ws, 4) && TakeTurns(p, ws, a, b, file) && EditsFirst(ws)
  {
    hide EditsFirst, CompletedSteps, RunsInWave, Incomplete, WaveWrites, LastTool, Do, AtMostInARow, TakeTurns, RunsAtOnce, ConflictFree, Batched, AllChunks;
    DueStep(t, e, p, s);
    var ids := Incomplete(p, t.d.journal, s);
    BatchesAreConflictFree(p, ids);
    AllRunAtOnce(p, Batched(p, ids));
    WaveTakesTurns(t.d.journal, p, AllChunks(Batched(p, ids)), e.childrenOk, a, b, file);
    WaveEditsFirst(t.d.journal, p, AllChunks(Batched(p, ids)), e.childrenOk);
  }
}
