/** What a restart can and cannot rebuild of the loop detector. */
module AgentDetector {
  import opened Options
  import opened LoopDetect
  import opened LoopDetectProofs
  import opened Journal
  import opened Agent

  const FRESH := NewDetector(DEFAULT_THRESHOLDS)

  /** The observations a journal entry can carry. */
  function Journaled(fed: seq<Observation>): seq<Observation> {
    if fed == [] then []
    else Journaled(fed[..|fed| - 1]) + (if fed[|fed| - 1].AfterRepair? then [] else [fed[|fed| - 1]])
  }

  /** Every diagnosis lists at least the touched files that the ones before it list. */
  predicate Cumulative(j: Log) {
    j == [] || (&& Cumulative(j[..|j| - 1])
                && (j[|j| - 1].Diagnosed? ==> TouchedFiles(j[..|j| - 1]) <= j[|j| - 1].metric.filesTouched))
  }

  predicate IsObservationEntry(e: Entry) {
    e.Diagnosed? || (e.VerifyResult? && e.passed)
  }

  function Carried(e: Entry): Observation
    requires IsObservationEntry(e)
  {
    if e.Diagnosed? then Cycle(e.fingerprint, e.fileState, e.metric) else Passed
  }

  /** The observations of the journal, each diagnosis with the touched files it lists itself. */
  function Listed(j: Log): (obs: seq<Observation>)
    ensures |obs| == |Observations(j)|
  {
    if j == [] then []
    else Listed(j[..|j| - 1]) + (if IsObservationEntry(j[|j| - 1]) then [Carried(j[|j| - 1])] else [])
  }

  /** What a process was given that rebuilt its memory when the journal carried `since` observations:
      up to there with the touched files accumulated, from there on as the diagnoses listed them. */
  function GivenSince(j: Log, since: nat): seq<Observation>
    requires since <= |Listed(j)|
  {
    Observations(j)[..since] + Listed(j)[since..]
  }

  /** The remembered detector is the fold of what it was fed; and what it was fed, apart from the
      bare steps after repair turns, is what the journal carries. */
  predicate DetectorAgrees(t: Task, since: nat) {
    t.mem.Some? ==>
      && t.mem.value.detector == Feed(FRESH, t.fed)
      && since <= |Listed(t.d.journal)|
      && Journaled(t.fed) == GivenSince(t.d.journal, since)
  }

  // ---------------------------------------------------------------- one event

  predicate NoObservations(ws: seq<Write>) {
    forall w :: w in ws ==> !(w.Append? && IsObservationEntry(w.entry))
  }

  lemma {:induction false} SameObservations(j: Log, ws: seq<Write>)
    requires NoObservations(ws)
    ensures var j' := j + Entries(ws);
      && Observations(j') == Observations(j) && Listed(j') == Listed(j)
      && TouchedFiles(j') == TouchedFiles(j) && Cumulative(j') == Cumulative(j)
  {
    if ws == [] {
      assert j + Entries(ws) == j;
    } else {
      var before := ws[..|ws| - 1];
      SameObservations(j, before);
      if ws[|ws| - 1].Append? {
        var whole := j + Entries(ws);
        assert whole[..|whole| - 1] == j + Entries(before);
        assert ws[|ws| - 1] in ws;
      } else {
        assert Entries(ws) == Entries(before);
      }
    }
  }

  lemma {:induction false} EntryAdds(j: Log, e: Entry)
    requires IsObservationEntry(e)
    ensures TouchedFiles(j + [e]) == TouchedFiles(j) + (if e.Diagnosed? then e.metric.filesTouched else {})
    ensures Cumulative(j + [e]) <==> Cumulative(j) && (e.Diagnosed? ==> TouchedFiles(j) <= e.metric.filesTouched)
    ensures Listed(j + [e]) == Listed(j) + [Carried(e)]
    ensures forall since :: 0 <= since <= |Listed(j)| ==> GivenSince(j + [e], since) == GivenSince(j, since) + [Carried(e)]
  {
    assert (j + [e])[..|j|] == j;
    assert Observations(j) <= Observations(j + [e]);
  }

  /** Writes that carry exactly one observation add exactly it. */
  lemma {:induction false} OneObservation(j: Log, pre: seq<Write>, e: Entry, post: seq<Write>)
    requires NoObservations(pre) && NoObservations(post) && IsObservationEntry(e)
    ensures var j' := j + Entries(pre + [Append(e)] + post);
      && TouchedFiles(j') == TouchedFiles(j) + (if e.Diagnosed? then e.metric.filesTouched else {})
      && (Cumulative(j') <==> Cumulative(j) && (e.Diagnosed? ==> TouchedFiles(j) <= e.metric.filesTouched))
      && Listed(j') == Listed(j) + [Carried(e)]
      && forall since :: 0 <= since <= |Listed(j)| ==> GivenSince(j', since) == GivenSince(j, since) + [Carried(e)]
  {
    hide Cumulative, Listed, Observations, TouchedFiles, GivenSince;
    assert j + Entries(pre + [Append(e)] + post) == (j + Entries(pre)) + [e] + Entries(post) by {
      EntriesConcat(pre + [Append(e)], post);
      EntriesConcat(pre, [Append(e)]);
      assert Entries([Append(e)]) == [e];
    }
    SameObservations(j, pre);
    EntryAdds(j + Entries(pre), e);
    SameObservations((j + Entries(pre)) + [e], post);
    SameGiven(j, j + Entries(pre));
    SameGiven((j + Entries(pre)) + [e], j + Entries(pre + [Append(e)] + post));
  }

  lemma {:induction false} SameGiven(j: Log, j': Log)
    requires Observations(j') == Observations(j) && Listed(j') == Listed(j)
    ensures forall since :: 0 <= since <= |Listed(j)| ==> GivenSince(j', since) == GivenSince(j, since)
  {
  }

  predicate FeedsNothing(t: Task, eff: Effect) {
    NoObservations(eff.writes) && eff.fed == TakeFed(t) && eff.mem.Some? && eff.mem.value.detector == Take(t).detector
  }

  predicate FeedsBare(t: Task, eff: Effect, h: Hash) {
    && NoObservations(eff.writes)
    && eff.fed == TakeFed(t) + [AfterRepair(h)]
    && eff.mem.Some? && eff.mem.value.detector == Observe(Take(t).detector, AfterRepair(h)).0
  }

  predicate FeedsEntry(t: Task, eff: Effect, pre: seq<Write>, e: Entry, post: seq<Write>) {
    && eff.writes == pre + [Append(e)] + post
    && NoObservations(pre) && NoObservations(post) && IsObservationEntry(e)
    && eff.fed == TakeFed(t) + [Carried(e)]
    && eff.mem.Some? && eff.mem.value.detector == Observe(Take(t).detector, Carried(e)).0
  }

  /** What a full action feeds the detector, and what it journals of that. */
  ghost predicate FeedsAsJournaled(t: Task, eff: Effect) {
    || eff.mem.None?
    || FeedsNothing(t, eff)
    || (exists h: Hash :: FeedsBare(t, eff, h))
    || (exists pre: seq<Write>, e: Entry, post: seq<Write> :: FeedsEntry(t, eff, pre, e, post))
  }

  lemma {:induction false} VerifyFeeds(t: Task, e: Env)
    ensures FeedsAsJournaled(t, VerifyStep(t, e))
  {
    var eff := VerifyStep(t, e);
    var vs := WithPlan(Take(t), e);
    if !(Take(t).plan == None && e.checks == []) {
      var next := NextAfter(vs.plan.value, vs.executed, vs.lastPassed);
      if next.Some? && e.run.Passes? {
        var pre := [Append(VerifyIssued(next.value)), World(Ran(next.value, true))];
        assert eff.writes == pre + [Append(VerifyResult(next.value, true))] + [];
        assert FeedsEntry(t, eff, pre, VerifyResult(next.value, true), []);
      }
    }
  }

  lemma {:induction false} DiagnoseFeeds(t: Task, e: Env)
    ensures FeedsAsJournaled(t, DiagnoseStep(t, e))
  {
    var eff := DiagnoseStep(t, e);
    var entry := Diagnosed(e.fingerprint, e.fileState, DiagnosisCycle(t, e).metric);
    var post := DiagnosisEntries(t, e)[1..] + DecisionWrites(DiagnosisDecision(t, e));
    assert eff.writes == [] + [Append(entry)] + post;
    assert NoObservations(post);
    assert Carried(entry) == DiagnosisCycle(t, e);
    assert eff.mem.Some? ==> FeedsEntry(t, eff, [], entry, post);
  }

  lemma {:induction false} RepairFeeds(t: Task, e: Env)
    ensures FeedsAsJournaled(t, RepairStep(t, e))
  {
    RepairMay(t, e);
    var eff := RepairStep(t, e);
    NothingObserved(Repairing, eff.writes);
    assert eff.mem.None? || FeedsNothing(t, eff) || FeedsBare(t, eff, e.fileState);
  }

  lemma {:induction false} NothingObserved(s: State, ws: seq<Write>)
    requires AllMay(s, ws) && !s.Verifying? && !s.Diagnosing?
    ensures NoObservations(ws)
  {
    forall w | w in ws
      ensures !(w.Append? && IsObservationEntry(w.entry))
    {
      assert MayWrite(s, w);
    }
  }

  lemma {:induction false} ActionFeeds(t: Task, a: Action)
    ensures FeedsAsJournaled(t, Do(t, a))
  {
    hide VerifyStep, DiagnoseStep, RepairStep, ImplementStep, ImplementPlanStep, PlanningRound;
    if !a.Drive? {
      ClientMay(t, a);
    } else if t.d.state.Verifying? {
      VerifyFeeds(t, a.env);
      assert Do(t, a) == VerifyStep(t, a.env);
    } else if t.d.state.Diagnosing? {
      DiagnoseFeeds(t, a.env);
      assert Do(t, a) == DiagnoseStep(t, a.env);
    } else if t.d.state.Repairing? {
      RepairFeeds(t, a.env);
      assert Do(t, a) == RepairStep(t, a.env);
    } else {
      DriveMay(t, a.env);
      NothingObserved(t.d.state, DriveStep(t, a.env).writes);
      MemoryIsKept(t, a.env);
    }
  }

  lemma {:induction false} JournaledOne(fed: seq<Observation>, o: Observation)
    ensures Journaled(fed + [o]) == Journaled(fed) + (if o.AfterRepair? then [] else [o])
  {
    assert (fed + [o])[..|fed|] == fed;
  }

  lemma {:induction false} ObservationsAreJournaled(j: Log)
    ensures Journaled(Observations(j)) == Observations(j)
  {
    if j != [] {
      ObservationsAreJournaled(j[..|j| - 1]);
      var before := Observations(j[..|j| - 1]);
      if Observations(j) != before {
        JournaledOne(before, Observations(j)[|before|]);
        assert Observations(j) == before + [Observations(j)[|before|]];
      }
    }
  }

  /** How many observations the journal carries when memory is built from it; for a task that is
      remembered already, how many it carried when that memory was built. */
  function TakenSince(t: Task, since: nat): nat {
    if t.mem.Some? then since else |Listed(t.d.journal)|
  }

  lemma {:induction false} TakenAgrees(t: Task, since: nat)
    requires DetectorAgrees(t, since)
    ensures Take(t).detector == Feed(FRESH, TakeFed(t))
    ensures TakenSince(t, since) <= |Listed(t.d.journal)|
    ensures Journaled(TakeFed(t)) == GivenSince(t.d.journal, TakenSince(t, since))
  {
    ObservationsAreJournaled(t.d.journal);
  }

  lemma {:induction false} FeedingKeepsAgreement(t: Task, eff: Effect, since: nat)
    requires DetectorAgrees(t, since) && FeedsAsJournaled(t, eff)
    ensures DetectorAgrees(Task(ApplyAll(t.d, eff.writes), eff.mem, eff.fed), TakenSince(t, since))
  {
    hide Listed, Observations, Cumulative, Take, TakeFed, Feed, Observe, GivenSince, Journaled;
    if eff.mem.Some? {
      var j := t.d.journal;
      TakenAgrees(t, since);
      JournalAfter(t.d, eff.writes);
      if FeedsNothing(t, eff) {
        SameObservations(j, eff.writes);
        SameGiven(j, j + Entries(eff.writes));
      } else if h: Hash :| FeedsBare(t, eff, h) {
        SameObservations(j, eff.writes);
        SameGiven(j, j + Entries(eff.writes));
        FeedOne(FRESH, TakeFed(t), AfterRepair(h));
        JournaledOne(TakeFed(t), AfterRepair(h));
      } else {
        var pre, e, post :| FeedsEntry(t, eff, pre, e, post);
        OneObservation(j, pre, e, post);
        FeedOne(FRESH, TakeFed(t), Carried(e));
        JournaledOne(TakeFed(t), Carried(e));
      }
    }
  }

  // ---------------------------------------------------------------- all runs

  /** How many observations the journal carried when the memory that is alive after these events was
      built: none in the process the task began in, and all there were for one that took over. */
  function MemorySince(events: seq<Event>): nat {
    if events == [] then 0
    else TakenSince(After(events[..|events| - 1]), MemorySince(events[..|events| - 1]))
  }

  lemma {:induction false} DetectorAgreesAlways(events: seq<Event>)
    ensures DetectorAgrees(After(events), MemorySince(events))
  {
    if events != [] {
      var before, ev := events[..|events| - 1], events[|events| - 1];
      DetectorAgreesAlways(before);
      var t := After(before);
      if ev.Run? {
        ActionFeeds(t, ev.action);
        FeedingKeepsAgreement(t, Do(t, ev.action), MemorySince(before));
      }
    }
  }

  function StepsIn(fed: seq<Observation>): nat {
    if fed == [] then 0 else StepsIn(fed[..|fed| - 1]) + (if fed[|fed| - 1].Passed? then 0 else 1)
  }

  lemma {:induction false} StepsCounted(fed: seq<Observation>)
    ensures |Feed(FRESH, fed).steps| == StepsIn(fed)
  {
    if fed != [] {
      StepsCounted(fed[..|fed| - 1]);
    }
  }

  function BareSteps(fed: seq<Observation>): nat {
    if fed == [] then 0 else BareSteps(fed[..|fed| - 1]) + (if fed[|fed| - 1].AfterRepair? then 1 else 0)
  }

  /** Leaving out the bare steps leaves that many steps fewer. */
  lemma {:induction false} BareStepsCount(fed: seq<Observation>)
    ensures StepsIn(fed) == StepsIn(Journaled(fed)) + BareSteps(fed)
  {
    hide Journaled;
    if fed == [] {
      JournaledNothing();
    } else {
      var before, o := fed[..|fed| - 1], fed[|fed| - 1];
      BareStepsCount(before);
      assert fed == before + [o];
      JournaledOne(before, o);
      if o.AfterRepair? {
        assert Journaled(fed) == Journaled(before);
      } else {
        StepsInOne(Journaled(before), o);
      }
    }
  }

  lemma {:induction false} JournaledNothing()
    ensures Journaled([]) == []
  {
  }

  lemma {:induction false} NoneLeftOut(fed: seq<Observation>)
    requires BareSteps(fed) == 0
    ensures Journaled(fed) == fed
  {
    if fed != [] {
      NoneLeftOut(fed[..|fed| - 1]);
    }
  }

  lemma {:induction false} StepsInOne(fed: seq<Observation>, o: Observation)
    ensures StepsIn(fed + [o]) == StepsIn(fed) + (if o.Passed? then 0 else 1)
  {
    assert (fed + [o])[..|fed|] == fed;
  }

  lemma {:induction false} NoBareSteps(fed: seq<Observation>)
    ensures BareSteps(fed) == 0 <==> forall i :: 0 <= i < |fed| ==> !fed[i].AfterRepair?
  {
    if fed != [] {
      var before := fed[..|fed| - 1];
      NoBareSteps(before);
      assert forall i :: 0 <= i < |before| ==> before[i] == fed[i];
    }
  }

  // ---------------------------------------------------------------- what a rebuilt detector knows

  /** The same observation, but for the touched files. */
  predicate SameButFiles(a: Observation, b: Observation) {
    if a.Cycle? && b.Cycle? then
      a.fingerprint == b.fingerprint && a.fileState == b.fileState
      && a.metric == b.metric.(filesTouched := a.metric.filesTouched)
    else a == b
  }

  predicate SameButTheirFiles(a: seq<Observation>, b: seq<Observation>) {
    |a| == |b| && forall i :: 0 <= i < |a| ==> SameButFiles(a[i], b[i])
  }

  /** Everything but the progress snapshots and the run of those that did not advance. */
  predicate SameButProgress(a: Detector, b: Detector) {
    && a.config == b.config && a.steps == b.steps && a.failures == b.failures && a.noChangeRun == b.noChangeRun
    && |a.progress| == |b.progress|
  }

  lemma {:induction false} ObservedAlike(a: Detector, b: Detector, o: Observation, o': Observation)
    requires SameButProgress(a, b) && SameButFiles(o, o')
    ensures SameButProgress(Observe(a, o).0, Observe(b, o').0)
    ensures Observe(a, o).0.progress == a.progress <==> Observe(b, o').0.progress == b.progress
    ensures Observe(a, o).0.progress ==
            if Observe(a, o).0.progress == a.progress || !o.Cycle? then a.progress else a.progress + [o.metric]
    ensures Observe(b, o').0.progress ==
            if Observe(b, o').0.progress == b.progress || !o'.Cycle? then b.progress else b.progress + [o'.metric]
  {
    hide StepObserved, TrailingRun;
    match o
    case Passed =>
    case AfterRepair(h) => SteppedAlike(a, b, FileStateStep(h));
    case Cycle(fp, h, _) =>
      SteppedAlike(a, b, FailureStep(fp, h));
      assert StepObserved(a, FailureStep(fp, h)).0.progress == a.progress;
      assert StepObserved(b, FailureStep(fp, h)).0.progress == b.progress;
  }

  lemma {:induction false} SteppedAlike(a: Detector, b: Detector, sig: Signature)
    requires SameButProgress(a, b)
    ensures StepObserved(a, sig).1 == StepObserved(b, sig).1
    ensures SameButProgress(StepObserved(a, sig).0, StepObserved(b, sig).0)
    ensures StepObserved(a, sig).0.progress == a.progress && StepObserved(b, sig).0.progress == b.progress
  {
    hide TrailingRun, LeastPeriod, ActedLately;
  }

  /** Which observations are made, and what the steps and failures are, does not depend on the touched
      files. */
  lemma {:induction false} FilesChangeProgressOnly(a: seq<Observation>, b: seq<Observation>)
    requires SameButTheirFiles(a, b)
    ensures SameButProgress(Feed(FRESH, a), Feed(FRESH, b))
  {
    hide Observe;
    if a != [] {
      FilesChangeProgressOnly(a[..|a| - 1], b[..|b| - 1]);
      ObservedAlike(Feed(FRESH, a[..|a| - 1]), Feed(FRESH, b[..|b| - 1]), a[|a| - 1], b[|b| - 1]);
    }
  }

  /** The `i`-th observation is a diagnosis that reaches the progress detector: the step and the failure
      detector found nothing, so its snapshot is recorded. */
  predicate TakesSnapshot(history: seq<Observation>, i: nat)
    requires i < |history|
  {
    Observe(Feed(FRESH, history[..i]), history[i]).0.progress != Feed(FRESH, history[..i]).progress
  }

  predicate SameSnapshots(a: seq<Observation>, b: seq<Observation>)
    requires |a| == |b|
  {
    forall i :: 0 <= i < |a| && TakesSnapshot(a, i) ==> a[i] == b[i]
  }

  lemma {:induction false} SnapshotPrefix(a: seq<Observation>, b: seq<Observation>)
    requires |a| == |b| && a != []
    ensures var n := |a| - 1;
      SameSnapshots(a, b) <==> SameSnapshots(a[..n], b[..n]) && (TakesSnapshot(a, n) ==> a[n] == b[n])
  {
    hide Observe, Feed;
    var n := |a| - 1;
    forall i | 0 <= i < n
      ensures TakesSnapshot(a[..n], i) == TakesSnapshot(a, i)
    {
      assert a[..n][..i] == a[..i];
    }
    if SameSnapshots(a, b) {
      forall i | 0 <= i < n && TakesSnapshot(a[..n], i)
        ensures a[..n][i] == b[..n][i]
      {
        assert TakesSnapshot(a, i);
      }
    }
    if SameSnapshots(a[..n], b[..n]) && (TakesSnapshot(a, n) ==> a[n] == b[n]) {
      forall i | 0 <= i < |a| && TakesSnapshot(a, i)
        ensures a[i] == b[i]
      {
        if i < n {
          assert TakesSnapshot(a[..n], i);
          assert a[..n][i] == b[..n][i];
        }
      }
    }
  }

  lemma {:induction false} SnapshotsAreProgress(a: seq<Observation>, b: seq<Observation>)
    requires SameButTheirFiles(a, b)
    ensures Feed(FRESH, a).progress == Feed(FRESH, b).progress <==> SameSnapshots(a, b)
  {
    hide Observe, TakesSnapshot, SameSnapshots;
    if a == [] {
      assert SameSnapshots(a, b) by {
        NothingToCompare(a, b);
      }
    } else {
      var n := |a| - 1;
      SnapshotsAreProgress(a[..n], b[..n]);
      SnapshotPrefix(a, b);
      FilesChangeProgressOnly(a[..n], b[..n]);
      LastSnapshot(a, b);
    }
  }

  lemma {:induction false} NothingToCompare(a: seq<Observation>, b: seq<Observation>)
    requires a == b == []
    ensures SameSnapshots(a, b)
  {
  }

  lemma {:induction false} LastSnapshot(a: seq<Observation>, b: seq<Observation>)
    requires SameButTheirFiles(a, b) && a != []
    requires SameButProgress(Feed(FRESH, a[..|a| - 1]), Feed(FRESH, b[..|b| - 1]))
    ensures var n := |a| - 1;
      Feed(FRESH, a).progress == Feed(FRESH, b).progress <==>
        Feed(FRESH, a[..n]).progress == Feed(FRESH, b[..n]).progress && (TakesSnapshot(a, n) ==> a[n] == b[n])
  {
    hide Observe;
    var n := |a| - 1;
    var x, y := Feed(FRESH, a[..n]), Feed(FRESH, b[..n]);
    ObservedAlike(x, y, a[n], b[n]);
    if TakesSnapshot(a, n) && a[n].Cycle? {
      SnocEqual(x.progress, y.progress, a[n].metric, b[n].metric);
    }
  }

  lemma {:induction false} SnocEqual<T>(s: seq<T>, s': seq<T>, x: T, x': T)
    requires |s| == |s'|
    ensures s + [x] == s' + [x'] <==> s == s' && x == x'
  {
    if s + [x] == s' + [x'] {
      assert (s + [x])[..|s|] == s && (s' + [x'])[..|s'|] == s';
      assert (s + [x])[|s|] == x && (s' + [x'])[|s'|] == x';
    }
  }

  /** So two such histories give the same detector if and only if they agree on the diagnoses that reach
      the progress detector. */
  lemma {:induction false} SnapshotsDecide(a: seq<Observation>, b: seq<Observation>)
    requires SameButTheirFiles(a, b)
    ensures Feed(FRESH, a) == Feed(FRESH, b) <==> SameSnapshots(a, b)
  {
    hide Feed, SameSnapshots;
    FilesChangeProgressOnly(a, b);
    SnapshotsAreProgress(a, b);
    CountersAreExact(DEFAULT_THRESHOLDS, a);
    CountersAreExact(DEFAULT_THRESHOLDS, b);
  }

  // ---- the touched files of a diagnosis

  /** Every file the observations list. */
  function FilesIn(obs: seq<Observation>): set<Path> {
    if obs == [] then {}
    else FilesIn(obs[..|obs| - 1]) + (if obs[|obs| - 1].Cycle? then obs[|obs| - 1].metric.filesTouched else {})
  }

  lemma {:induction false} TouchedIsListed(j: Log)
    ensures TouchedFiles(j) == FilesIn(Listed(j))
  {
    if j != [] {
      var before := Listed(j[..|j| - 1]);
      TouchedIsListed(j[..|j| - 1]);
      if IsObservationEntry(j[|j| - 1]) {
        assert Listed(j) == before + [Carried(j[|j| - 1])];
        assert Listed(j)[..|Listed(j)| - 1] == before;
      } else {
        assert Listed(j) == before;
      }
    }
  }

  /** A replay gives each diagnosis the files of its list and of every list before it. */
  lemma {:induction false} ReplayAccumulates(j: Log, i: nat)
    requires i < |Listed(j)|
    ensures SameButFiles(Observations(j)[i], Listed(j)[i])
    ensures Observations(j)[i] == Listed(j)[i] <==>
            (Listed(j)[i].Cycle? ==> FilesIn(Listed(j)[..i]) <= Listed(j)[i].metric.filesTouched)
  {
    var before := Listed(j[..|j| - 1]);
    if i < |before| {
      ReplayAccumulates(j[..|j| - 1], i);
      assert Listed(j)[..i] == before[..i];
    } else {
      TouchedIsListed(j[..|j| - 1]);
      assert Listed(j)[..i] == before;
    }
  }

  lemma {:induction false} GivenIsReplayed(j: Log, since: nat)
    requires since <= |Listed(j)|
    ensures SameButTheirFiles(Observations(j), GivenSince(j, since))
    ensures SameSnapshots(Observations(j), GivenSince(j, since)) <==> ListsAreCumulative(j, since)
  {
    hide Observe, Feed, Observations, Listed, TakesSnapshot, FilesIn;
    var replayed, given := Observations(j), GivenSince(j, since);
    forall i | 0 <= i < |replayed|
      ensures SameButFiles(replayed[i], given[i])
      ensures replayed[i] == given[i] <==>
              (since <= i && Listed(j)[i].Cycle? ==> FilesIn(Listed(j)[..i]) <= Listed(j)[i].metric.filesTouched)
    {
      ReplayAccumulates(j, i);
    }
    if SameSnapshots(replayed, given) {
      forall i | since <= i < |Listed(j)| && Listed(j)[i].Cycle? && TakesSnapshot(replayed, i)
        ensures FilesIn(Listed(j)[..i]) <= Listed(j)[i].metric.filesTouched
      {
        assert replayed[i] == given[i];
      }
    }
  }

  /** Every diagnosis made since then that reached the progress detector listed every file that an
      earlier one had listed. */
  predicate ListsAreCumulative(j: Log, since: nat) {
    forall i :: since <= i < |Listed(j)| && Listed(j)[i].Cycle? && TakesSnapshot(Observations(j), i) ==>
      FilesIn(Listed(j)[..i]) <= Listed(j)[i].metric.filesTouched
  }

  /** What a restart rebuilds of the detector, on every run with any number of crashes. The remembered
      detector is the fold of what it was fed, and that is, but for the steps after repair turns, what
      the journal carries. The rebuilt detector knows the same steps, failures and number of snapshots as
      that fold without those steps. It is the same detector if and only if every diagnosis of this
      process that took a snapshot listed every file any process had listed before; and it is the
      remembered one if and only if, besides, no repair turn has ended since this process built its
      memory. */
  lemma {:induction false} DetectorReplay(events: seq<Event>)
    requires After(events).mem.Some?
    ensures var t, since := After(events), MemorySince(events);
      var j := t.d.journal;
      && t.mem.value.detector == Feed(FRESH, t.fed)
      && since <= |Listed(j)| && Journaled(t.fed) == GivenSince(j, since)
      && SameButProgress(ReplayDetector(j), Feed(FRESH, Journaled(t.fed)))
      && (ReplayDetector(j) == Feed(FRESH, Journaled(t.fed)) <==> ListsAreCumulative(j, since))
      && (ReplayDetector(j) == t.mem.value.detector <==>
            ListsAreCumulative(j, since) && forall i :: 0 <= i < |t.fed| ==> !t.fed[i].AfterRepair?)
  {
    hide Feed, Observations, Listed, Journaled, GivenSince, ListsAreCumulative, SameSnapshots, SameButTheirFiles, MemorySince, After;
    var t, since := After(events), MemorySince(events);
    var j := t.d.journal;
    DetectorAgreesAlways(events);
    GivenIsReplayed(j, since);
    FilesChangeProgressOnly(Observations(j), GivenSince(j, since));
    SnapshotsDecide(Observations(j), GivenSince(j, since));
    BareStepsCount(t.fed);
    NoBareSteps(t.fed);
    if BareSteps(t.fed) == 0 {
      NoneLeftOut(t.fed);
    }
    StepsCounted(t.fed);
    StepsCounted(Journaled(t.fed));
  }

  // ---------------------------------------------------------------- when the lists are cumulative

  /** Memory that holds everything the journal lists as touched; without memory there is nothing
      listed yet, or the task is over. */
  predicate RemembersTouched(t: Task) {
    && Cumulative(t.d.journal)
    && (t.mem.Some? ==> TouchedFiles(t.d.journal) <= t.mem.value.touched)
    && (t.mem.None? ==> TouchedFiles(t.d.journal) == {} || t.d.state.Terminal())
  }

  lemma {:induction false} DiagnosisKeepsTouched(t: Task, e: Env)
    requires RemembersTouched(t)
    ensures var eff := DiagnoseStep(t, e); RemembersTouched(Task(ApplyAll(t.d, eff.writes), eff.mem, eff.fed))
    requires t.d.state.Diagnosing?
  {
    hide DiagnosisFinding, Observe, Observations;
    var eff := DiagnoseStep(t, e);
    var entry := Diagnosed(e.fingerprint, e.fileState, DiagnosisCycle(t, e).metric);
    var post := DiagnosisEntries(t, e)[1..] + DecisionWrites(DiagnosisDecision(t, e));
    assert eff.writes == [] + [Append(entry)] + post;
    assert NoObservations(post);
    JournalAfter(t.d, eff.writes);
    DiagnosisTouches(t.d.journal, entry, post, Take(t).touched + e.changed);
    if eff.mem.None? {
    } else {
      assert eff.mem.value.touched == Take(t).touched + e.changed;
    }
  }

  lemma {:induction false} DiagnosisTouches(j: Log, entry: Entry, post: seq<Write>, touched: set<Path>)
    requires entry.Diagnosed? && entry.metric.filesTouched == touched
    requires NoObservations(post) && Cumulative(j) && TouchedFiles(j) <= touched
    ensures var j' := j + Entries([] + [Append(entry)] + post); Cumulative(j') && TouchedFiles(j') <= touched
  {
    OneObservation(j, [], entry, post);
  }

  lemma {:induction false} VerifyKeepsTouched(t: Task, e: Env)
    requires RemembersTouched(t) && t.d.state.Verifying?
    ensures var eff := VerifyStep(t, e); RemembersTouched(Task(ApplyAll(t.d, eff.writes), eff.mem, eff.fed))
  {
    var eff := VerifyStep(t, e);
    JournalAfter(t.d, eff.writes);
    VerifyMay(t, e);
    NothingDiagnosed(eff.writes);
    SameTouched(t.d.journal, eff.writes);
  }

  lemma {:induction false} NothingDiagnosed(ws: seq<Write>)
    requires AllMay(Verifying, ws)
    ensures forall w :: w in ws ==> !(w.Append? && w.entry.Diagnosed?)
  {
    forall w | w in ws
      ensures !(w.Append? && w.entry.Diagnosed?)
    {
      assert MayWrite(Verifying, w);
    }
  }

  lemma {:induction false} SameTouched(j: Log, ws: seq<Write>)
    requires forall w :: w in ws ==> !(w.Append? && w.entry.Diagnosed?)
    ensures TouchedFiles(j + Entries(ws)) == TouchedFiles(j) && Cumulative(j + Entries(ws)) == Cumulative(j)
  {
    if ws == [] {
      assert j + Entries(ws) == j;
    } else {
      var before := ws[..|ws| - 1];
      SameTouched(j, before);
      assert ws[|ws| - 1] in ws;
      if ws[|ws| - 1].Append? {
        var whole := j + Entries(ws);
        assert whole[..|whole| - 1] == j + Entries(before);
      } else {
        assert Entries(ws) == Entries(before);
      }
    }
  }

  lemma {:induction false} DenialEnds(t: Task, e: Env)
    requires RepairStep(t, e).mem.None? && !ToolInterrupted(t.d.journal)
    ensures ApplyAll(t.d, RepairStep(t, e).writes).state.Failed?
  {
    var ws := RepairStep(t, e).writes;
    assert |ws| == 7 && ws[5] == Goto(Failed);
    StateAfter(t.d, ws, 6);
  }

  lemma {:induction false} RepairKeepsTouched(t: Task, e: Env)
    requires RemembersTouched(t) && t.d.state.Repairing?
    ensures var eff := RepairStep(t, e); RemembersTouched(Task(ApplyAll(t.d, eff.writes), eff.mem, eff.fed))
  {
    hide RepairStep, Take, Observations;
    var eff := RepairStep(t, e);
    RepairMay(t, e);
    NothingObserved(Repairing, eff.writes);
    SameObservations(t.d.journal, eff.writes);
    JournalAfter(t.d, eff.writes);
    RepairRemembers(t, e);
    TakenTouched(t);
    if eff.mem.None? && !ToolInterrupted(t.d.journal) {
      DenialEnds(t, e);
    }
  }

  lemma {:induction false} TakenTouched(t: Task)
    requires RemembersTouched(t) && !t.d.state.Terminal()
    ensures TouchedFiles(t.d.journal) <= Take(t).touched
  {
  }

  lemma {:induction false} RepairRemembers(t: Task, e: Env)
    ensures RepairStep(t, e).mem.Some? ==> RepairStep(t, e).mem.value.touched == Take(t).touched
    ensures ToolInterrupted(t.d.journal) ==> RepairStep(t, e).mem == t.mem
  {
  }

  lemma {:induction false} QuietlyRemembered(t: Task, eff: Effect)
    requires RemembersTouched(t) && NoObservations(eff.writes)
    requires eff.mem == t.mem || (t.d.state.Terminal() && eff.mem.None? && eff.writes == [])
    requires t.d.state.Terminal() ==> eff.writes == []
    ensures RemembersTouched(Task(ApplyAll(t.d, eff.writes), eff.mem, eff.fed))
  {
    SameObservations(t.d.journal, eff.writes);
    JournalAfter(t.d, eff.writes);
  }

  lemma {:induction false} OthersKeepTouched(t: Task, a: Action)
    requires RemembersTouched(t)
    requires !a.Drive? || !(t.d.state.Verifying? || t.d.state.Diagnosing? || t.d.state.Repairing?)
    ensures var eff := Do(t, a); RemembersTouched(Task(ApplyAll(t.d, eff.writes), eff.mem, eff.fed))
  {
    hide VerifyStep, DiagnoseStep, RepairStep, ImplementStep, ImplementPlanStep, PlanningRound, RemembersTouched;
    var eff := Do(t, a);
    if a.Drive? {
      DriveMay(t, a.env);
      NothingObserved(t.d.state, eff.writes);
      MemoryIsKept(t, a.env);
    } else {
      ClientMay(t, a);
    }
    QuietlyRemembered(t, eff);
  }

  lemma {:induction false} ActionKeepsTouched(t: Task, a: Action)
    requires RemembersTouched(t)
    ensures RemembersTouched(Step(t, Run(a)))
  {
    hide VerifyStep, DiagnoseStep, RepairStep, ImplementStep, ImplementPlanStep, PlanningRound, RemembersTouched;
    if a.Drive? && t.d.state.Diagnosing? {
      DiagnosisKeepsTouched(t, a.env);
      assert Do(t, a) == DiagnoseStep(t, a.env);
    } else if a.Drive? && t.d.state.Verifying? {
      VerifyKeepsTouched(t, a.env);
      assert Do(t, a) == VerifyStep(t, a.env);
    } else if a.Drive? && t.d.state.Repairing? {
      RepairKeepsTouched(t, a.env);
      assert Do(t, a) == RepairStep(t, a.env);
    } else {
      OthersKeepTouched(t, a);
    }
  }

  /** Without a crash the lists are cumulative, because the memory that accumulates them is not lost.
      A crash loses that memory, and the change ledger with it. */
  lemma {:induction false} CumulativeWithoutCrash(events: seq<Event>)
    requires Crashes(events) == 0
    ensures RemembersTouched(After(events))
  {
    if events != [] {
      var before := events[..|events| - 1];
      CumulativeWithoutCrash(before);
      ActionKeepsTouched(After(before), events[|events| - 1].action);
    }
  }

  lemma {:induction false} CumulativeLists(j: Log)
    requires Cumulative(j)
    ensures Listed(j) == Observations(j)
  {
    if j != [] {
      CumulativeLists(j[..|j| - 1]);
      if j[|j| - 1].Diagnosed? {
        assert TouchedFiles(j) == j[|j| - 1].metric.filesTouched;
      }
    }
  }

  /** So on a run without crashes the replay is wrong about nothing but the steps after repair turns. */
  lemma {:induction false} ReplayWithoutCrash(events: seq<Event>)
    requires Crashes(events) == 0 && After(events).mem.Some?
    ensures var t := After(events);
      && Journaled(t.fed) == Observations(t.d.journal)
      && (ReplayDetector(t.d.journal) == t.mem.value.detector <==> forall i :: 0 <= i < |t.fed| ==> !t.fed[i].AfterRepair?)
  {
    hide Feed, Observations, Listed, Journaled, MemorySince, After, ListsAreCumulative;
    var t := After(events);
    CumulativeWithoutCrash(events);
    CumulativeLists(t.d.journal);
    DetectorReplay(events);
    assert GivenSince(t.d.journal, MemorySince(events)) == Observations(t.d.journal);
    EqualHistories(t.fed, Observations(t.d.journal));
  }

  lemma {:induction false} EqualHistories(fed: seq<Observation>, obs: seq<Observation>)
    requires Journaled(fed) == obs
    ensures Feed(FRESH, Journaled(fed)) == Feed(FRESH, obs)
  {
  }
}
