/** Runs on which every failure is a new one, so that only the progress snapshots matter. */
module AgentRounds {
  import opened Options
  import opened LoopDetect
  import R = Repair
  import opened Journal
  import opened Agent
  import opened AgentTermination
  import V = AgentDivergence
  import D = AgentDetector
  import L = AgentLedger

  /** One check that fails, diagnosed as `fp`, with these files changed by this process. */
  function Failing(fp: Fingerprint, changed: set<Path>): Env {
    V.SAME.(fingerprint := fp, changed := changed)
  }

  // ---------------------------------------------------------------- a failure never seen before

  /** A detector that has seen no failure outside `seen`, and no step that acted. */
  ghost predicate Tracks(d: Detector, seen: set<Fingerprint>, progress: seq<Metric>, stalled: nat) {
    && d.config == DEFAULT_THRESHOLDS && d.progress == progress && d.stalledRun == stalled
    && (forall i :: 0 <= i < |d.steps| ==>
          !d.steps[i].Acts() && (d.steps[i].key.error.Some? ==> d.steps[i].key.error.value in seen))
    && (forall i :: 0 <= i < |d.failures| ==> d.failures[i] in seen)
  }

  function StalledAfter(progress: seq<Metric>, stalled: nat, m: Metric): nat {
    if progress == [] then stalled
    else if m.AdvancedSince(progress[|progress| - 1]) then 0
    else stalled + 1
  }

  function Stall(run: nat): Option<Finding> {
    if run >= 3 then Some(FrontierStalled(run)) else None
  }

  lemma {:induction false} CycleRepeatsLast<T>(keys: seq<T>, p: nat)
    requires EndsInCycle(keys, p)
    ensures keys[|keys| - 1] == keys[|keys| - 2 * p - 1]
  {
    var tail := keys[|keys| - 3 * p..];
    var block := tail[..p];
    assert tail[3 * p - 1] == (block + block + block)[3 * p - 1] == block[p - 1] == tail[p - 1];
  }

  lemma {:induction false} NewKeyEndsNoCycle<T>(keys: seq<T>, x: T, p: nat)
    requires x !in keys
    ensures !EndsInCycle(keys + [x], p)
  {
    if EndsInCycle(keys + [x], p) {
      CycleRepeatsLast(keys + [x], p);
      assert false;
    }
  }

  lemma {:induction false} NoLeastPeriod<T>(keys: seq<T>, max: nat)
    requires forall p :: 1 <= p <= max ==> !EndsInCycle(keys, p)
    ensures LeastPeriod(keys, 1, max) == None
  {
  }

  lemma {:induction false} NewStep(d: Detector, seen: set<Fingerprint>, progress: seq<Metric>, stalled: nat,
                                   fp: Fingerprint, fileState: Hash)
    requires Tracks(d, seen, progress, stalled) && fp !in seen
    ensures var (d', f) := StepObserved(d, FailureStep(fp, fileState));
      f == None && Tracks(d', seen + {fp}, progress, stalled) && d'.failures == d.failures
  {
    hide LeastPeriod, TrailingRun, EndsInCycle;
    var sig := FailureStep(fp, fileState);
    var d1 := d.(steps := d.steps + [sig], noChangeRun := NoChangeRunAfter(d, sig));
    var before, keys := Keys(d.steps), Keys(d1.steps);
    assert keys == before + [sig.key];
    forall p | 1 <= p <= 3
      ensures !EndsInCycle(keys, p)
    {
      NewKeyEndsNoCycle(before, sig.key, p);
    }
    NoLeastPeriod(keys, 3);
    V.RunOfOne(keys, sig.key);
  }

  lemma {:induction false} NewFailureRun(failures: seq<Fingerprint>, fp: Fingerprint)
    requires fp !in failures
    ensures TrailingRun(failures + [fp], fp) == 1
  {
    V.RunOfOne(failures + [fp], fp);
  }

  /** A new failure is reported only as a stall. */
  lemma {:induction false} NewFailure(d: Detector, seen: set<Fingerprint>, progress: seq<Metric>, stalled: nat,
                                      fp: Fingerprint, fileState: Hash, m: Metric)
    requires Tracks(d, seen, progress, stalled) && fp !in seen
    ensures var (d', f) := Observe(d, Cycle(fp, fileState, m)); var run := StalledAfter(progress, stalled, m);
      f == Stall(run) && Tracks(d', seen + {fp}, progress + [m], run)
  {
    hide StepObserved, TrailingRun;
    NewStep(d, seen, progress, stalled, fp, fileState);
    NewFailureRun(d.failures, fp);
  }

  lemma {:induction false} BareStepTracks(d: Detector, seen: set<Fingerprint>, progress: seq<Metric>, stalled: nat)
    requires Tracks(d, seen, progress, stalled)
    ensures Tracks(Observe(d, V.BARE).0, seen, progress, stalled)
  {
    hide LeastPeriod, TrailingRun, ActedLately;
  }

  // ---------------------------------------------------------------- what a task remembers and journals

  /** What there is to know of a task on such a run: the snapshots its process took and the ones a replay
      finds, with the runs that did not advance; the files its process remembers, and the ones the
      journal lists; and how many attempts were made. */
  datatype Story = Story(seen: set<Fingerprint>, live: seq<Metric>, run: nat, replayed: seq<Metric>, replayedRun: nat,
                         touched: set<Path>, listed: set<Path>, attempts: nat)

  predicate Few(l: R.Ledger, seen: set<Fingerprint>, attempts: nat) {
    && |l.attempts| == attempts && l.maxAttempts == MAX_REPAIR_ATTEMPTS && !l.escalated
    && forall i :: 0 <= i < attempts ==>
         l.attempts[i].outcome.NoChange? && (l.attempts[i].fingerprint in seen || l.attempts[i].fingerprint == "")
  }

  ghost predicate Tells(t: Task, s: Story) {
    && !ToolInterrupted(t.d.journal)
    && Tracks(Take(t).detector, s.seen, s.live, s.run)
    && Tracks(Feed(D.FRESH, D.Journaled(TakeFed(t))), s.seen, s.live, s.run)
    && Tracks(ReplayDetector(t.d.journal), s.seen, s.replayed, s.replayedRun)
    && Few(Take(t).repair, s.seen, s.attempts)
    && Take(t).touched == s.touched && TouchedFiles(t.d.journal) == s.listed
  }

  /** A new failure is diagnosed with these files changed, and this frontier and failure count. */
  function Noticed(s: Story, fp: Fingerprint, changed: set<Path>, frontier: nat, failures: nat): Story {
    var m := Metric(frontier, failures, s.touched + changed);
    var m' := Metric(frontier, failures, s.listed + s.touched + changed);
    s.(seen := s.seen + {fp}, live := s.live + [m], run := StalledAfter(s.live, s.run, m),
       replayed := s.replayed + [m'], replayedRun := StalledAfter(s.replayed, s.replayedRun, m'),
       touched := s.touched + changed, listed := s.listed + s.touched + changed)
  }

  /** A process takes over that knows only the journal. */
  function Restarted(s: Story): Story {
    s.(live := s.replayed, run := s.replayedRun, touched := {})
  }

  lemma {:induction false} RestartTells(t: Task, s: Story)
    requires Tells(t, s) && L.LedgerAgrees(t)
    ensures Tells(Task(t.d, None, []), Restarted(s))
  {
    hide Tracks, LastTool, Feed, D.Journaled, Few;
    D.ObservationsAreJournaled(t.d.journal);
  }

  // ---- the writes of each handler

  lemma {:induction false} QuietJournal(j: Log, ws: seq<Write>)
    requires D.NoObservations(ws) && NoToolEntries(ws)
    ensures var j' := j + Entries(ws);
      ReplayDetector(j') == ReplayDetector(j) && TouchedFiles(j') == TouchedFiles(j) && LastTool(j') == LastTool(j)
  {
    D.SameObservations(j, ws);
    SameTool(j, ws);
  }

  lemma {:induction false} DiagnosisJournaled(j: Log, e: Entry, post: seq<Write>)
    requires e.Diagnosed? && D.NoObservations(post) && NoToolEntries(post)
    ensures var j' := j + Entries([Append(e)] + post);
      && ReplayDetector(j') ==
         Observe(ReplayDetector(j), Cycle(e.fingerprint, e.fileState,
                                          e.metric.(filesTouched := TouchedFiles(j) + e.metric.filesTouched))).0
      && TouchedFiles(j') == TouchedFiles(j) + e.metric.filesTouched && LastTool(j') == LastTool(j)
  {
    hide Observe, D.Cumulative, D.Listed, D.GivenSince;
    EntriesConcat([Append(e)], post);
    EntriesFew(Append(e), Append(e));
    var j1 := j + [e];
    assert j1[..|j|] == j;
    assert j + Entries([Append(e)] + post) == j1 + Entries(post);
    var o := Cycle(e.fingerprint, e.fileState, e.metric.(filesTouched := TouchedFiles(j) + e.metric.filesTouched));
    assert Observations(j1) == Observations(j) + [o];
    FeedOne(D.FRESH, Observations(j), o);
    QuietJournal(j1, post);
  }

  lemma {:induction false} JournaledFeed(fed: seq<Observation>, o: Observation)
    ensures Feed(D.FRESH, D.Journaled(fed + [o])) ==
            if o.AfterRepair? then Feed(D.FRESH, D.Journaled(fed)) else Observe(Feed(D.FRESH, D.Journaled(fed)), o).0
  {
    hide Observe, D.Journaled;
    D.JournaledOne(fed, o);
    if o.AfterRepair? {
      assert D.Journaled(fed) + [] == D.Journaled(fed);
    } else {
      FeedOne(D.FRESH, D.Journaled(fed), o);
    }
  }

  lemma {:induction false} NeverTried(l: R.Ledger, seen: set<Fingerprint>, fp: Fingerprint, attempts: nat)
    requires Few(l, seen, attempts) && fp !in seen && fp != ""
    ensures l.CountFor(fp) == 0
    decreases attempts
  {
    if attempts > 0 {
      NeverTried(l.(attempts := l.attempts[..attempts - 1]), seen, fp, attempts - 1);
    }
  }

  /** What a process makes of a new failure: with no finding it goes on, with a stall it escalates. */
  lemma {:induction false} NewFailureDecided(t: Task, s: Story, fp: Fingerprint, changed: set<Path>)
    requires Tells(t, s) && s.attempts < MAX_REPAIR_ATTEMPTS && fp !in s.seen && fp != ""
    ensures var e := Failing(fp, changed); var s' := Noticed(s, fp, changed, Take(t).executed, Take(t).lastFailures);
      && DiagnosisFinding(t, e) == Stall(s'.run)
      && DiagnosisDecision(t, e) == (if s'.run >= 3 then R.EscalateStrategy else R.Continue)
      && Observe(Feed(D.FRESH, D.Journaled(TakeFed(t))), DiagnosisCycle(t, e)).1 == Stall(s'.run)
      && Tracks(Observe(Take(t).detector, DiagnosisCycle(t, e)).0, s'.seen, s'.live, s'.run)
      && Tracks(Observe(Feed(D.FRESH, D.Journaled(TakeFed(t))), DiagnosisCycle(t, e)).0, s'.seen, s'.live, s'.run)
  {
    hide Observe, Tracks, Take, TakeFed, LastTool, Feed, D.Journaled, StalledAfter, ReplayDetector, TouchedFiles;
    var m := Metric(Take(t).executed, Take(t).lastFailures, s.touched + changed);
    assert DiagnosisCycle(t, Failing(fp, changed)) == Cycle(fp, "files", m);
    NewFailure(Take(t).detector, s.seen, s.live, s.run, fp, "files", m);
    NewFailure(Feed(D.FRESH, D.Journaled(TakeFed(t))), s.seen, s.live, s.run, fp, "files", m);
    NeverTried(Take(t).repair, s.seen, fp, s.attempts);
  }

  /** The journal after the diagnosis of a new failure, whatever follows it. */
  lemma {:induction false} NewFailureJournaled(t: Task, s: Story, fp: Fingerprint, changed: set<Path>, post: seq<Write>)
    requires Tells(t, s) && fp !in s.seen && D.NoObservations(post) && NoToolEntries(post)
    ensures var s' := Noticed(s, fp, changed, Take(t).executed, Take(t).lastFailures);
      var entry := Diagnosed(fp, "files", DiagnosisCycle(t, Failing(fp, changed)).metric);
      var j' := t.d.journal + Entries([Append(entry)] + post);
      && Tracks(ReplayDetector(j'), s'.seen, s'.replayed, s'.replayedRun)
      && TouchedFiles(j') == s'.listed && !ToolInterrupted(j')
  {
    hide Observe, Tracks, Take, TakeFed, LastTool, Feed, D.Journaled, StalledAfter, ReplayDetector, TouchedFiles, Entries;
    var m := DiagnosisCycle(t, Failing(fp, changed)).metric;
    var m' := m.(filesTouched := s.listed + m.filesTouched);
    assert m'.filesTouched == s.listed + s.touched + changed;
    DiagnosisJournaled(t.d.journal, Diagnosed(fp, "files", m), post);
    NewFailure(ReplayDetector(t.d.journal), s.seen, s.replayed, s.replayedRun, fp, "files", m');
  }

  lemma {:induction false} DiagnosedNew(t: Task, s: Story, fp: Fingerprint, changed: set<Path>)
    requires Tells(t, s) && t.d.state.Diagnosing?
    requires s.attempts < MAX_REPAIR_ATTEMPTS && fp !in s.seen && fp != ""
    requires Noticed(s, fp, changed, Take(t).executed, Take(t).lastFailures).run < 3
    ensures var t' := Step(t, Run(Drive(Failing(fp, changed))));
      && t'.d.state.Repairing? && t'.mem.Some? && t'.mem.value.pending == Some(fp)
      && t'.fed == TakeFed(t) + [DiagnosisCycle(t, Failing(fp, changed))]
      && Tells(t', Noticed(s, fp, changed, Take(t).executed, Take(t).lastFailures))
  {
    hide Observe, Tracks, Take, TakeFed, LastTool, Feed, D.Journaled, StalledAfter, Observations, TouchedFiles, Entries, ApplyAll;
    var e := Failing(fp, changed);
    NewFailureDecided(t, s, fp, changed);
    var entry := Diagnosed(fp, "files", DiagnosisCycle(t, e).metric);
    var post := [Append(Decided(R.Continue)), Goto(Repairing)];
    var ws := DiagnoseStep(t, e).writes;
    assert ws == [Append(entry)] + post;
    var t' := Step(t, Run(Drive(e)));
    assert t'.d == ApplyAll(t.d, ws);
    StateAfter(t.d, ws, |ws|);
    JournalAfter(t.d, ws);
    NewFailureJournaled(t, s, fp, changed, post);
    JournaledFeed(TakeFed(t), DiagnosisCycle(t, e));
    TakenLive(t');
  }

  lemma {:induction false} TakenLive(t: Task)
    requires t.mem.Some?
    ensures Take(t) == t.mem.value && TakeFed(t) == t.fed
  {
  }

  lemma {:induction false} LostDiagnosis(t: Task, e: Env)
    requires t.d.state.Diagnosing?
    ensures var entry := Diagnosed(e.fingerprint, e.fileState, DiagnosisCycle(t, e).metric);
      Step(t, Crash(Drive(e), 1)) == Task(t.d.(journal := t.d.journal + [entry]), None, [])
  {
    hide Observe, DiagnosisDecision, DiagnosisFinding, ApplyAll, Take, TakeFed;
    var entry := Diagnosed(e.fingerprint, e.fileState, DiagnosisCycle(t, e).metric);
    assert DiagnoseStep(t, e).writes[..1] == [Append(entry)];
    ApplyFew(t.d, Append(entry), Append(entry), Append(entry));
  }

  /** A process that knows only the journal. */
  lemma {:induction false} FromJournal(t: Task, s: Story)
    requires t.mem == None && !ToolInterrupted(t.d.journal)
    requires Tracks(ReplayDetector(t.d.journal), s.seen, s.live, s.run) && s.replayed == s.live && s.replayedRun == s.run
    requires Few(ReplayLedger(t.d.journal, MAX_REPAIR_ATTEMPTS), s.seen, s.attempts)
    requires s.touched == {} && TouchedFiles(t.d.journal) == s.listed
    ensures Tells(t, s)
  {
    hide Tracks, LastTool, Feed, D.Journaled, Few, TouchedFiles, Observations, ReplayLedger;
    D.ObservationsAreJournaled(t.d.journal);
  }

  /** A crash right after the diagnosis was journaled. */
  lemma {:induction false} DiagnosedThenLost(t: Task, s: Story, fp: Fingerprint, changed: set<Path>)
    requires Tells(t, s) && t.d.state.Diagnosing? && L.LedgerAgrees(t) && fp !in s.seen
    ensures var t' := Step(t, Crash(Drive(Failing(fp, changed)), 1));
      && t'.d.state.Diagnosing? && t'.mem == None && t'.fed == []
      && Tells(t', Restarted(Noticed(s, fp, changed, Take(t).executed, Take(t).lastFailures)))
      && |Observations(t'.d.journal)| == |Observations(t.d.journal)| + 1
  {
    hide Observe, Tracks, LastTool, Feed, D.Journaled, StalledAfter, Entries, TouchedFiles, ReplayLedger, ReplayDetector, Step,
         Take;
    var e := Failing(fp, changed);
    var entry := Diagnosed(fp, "files", DiagnosisCycle(t, e).metric);
    LostDiagnosis(t, e);
    EntriesFew(Append(entry), Append(entry));
    NewFailureJournaled(t, s, fp, changed, []);
    assert [Append(entry)] + [] == [Append(entry)];
    OneObservation(t.d.journal, entry);
    SameLedger(t.d.journal, [Append(entry)]);
    StillFew(t, s, fp);
    FromJournal(Step(t, Crash(Drive(e), 1)), Restarted(Noticed(s, fp, changed, Take(t).executed, Take(t).lastFailures)));
  }

  lemma {:induction false} OneObservation(j: Log, e: Entry)
    requires e.Diagnosed?
    ensures |Observations(j + [e])| == |Observations(j)| + 1
  {
    assert (j + [e])[..|j|] == j;
  }

  lemma {:induction false} StillFew(t: Task, s: Story, fp: Fingerprint)
    requires Tells(t, s) && L.LedgerAgrees(t)
    ensures Few(ReplayLedger(t.d.journal, MAX_REPAIR_ATTEMPTS), s.seen + {fp}, s.attempts)
  {
    hide Tracks, LastTool, Feed, D.Journaled, TouchedFiles, ReplayLedger, ReplayDetector;
  }

  lemma {:induction false} TurnRemembered(vs: VerifyState, seen: set<Fingerprint>, attempts: nat)
    requires Few(vs.repair, seen, attempts) && (vs.pending.Some? ==> vs.pending.value in seen)
    ensures var m := AfterRepairTurn(vs, V.SAME);
      && m.plan == None && m.touched == vs.touched && m.detector == Observe(vs.detector, V.BARE).0
      && Few(m.repair, seen, attempts + 1)
  {
    hide Observe;
  }

  lemma {:induction false} TurnTaken(t: Task, s: Story)
    requires Tells(t, s) && t.d.state.Repairing?
    requires Take(t).pending.Some? ==> Take(t).pending.value in s.seen
    ensures var t' := Step(t, Run(Drive(V.SAME)));
      && t'.d.state.Verifying? && t'.mem.Some? && t'.mem.value.plan == None
      && Tells(t', s.(attempts := s.attempts + 1))
  {
    hide Observe, Tracks, Take, TakeFed, LastTool, Feed, D.Journaled, TouchedFiles, Entries, ApplyAll, RepairStep, AfterRepairTurn, Few;
    hide ReplayDetector, AttemptFor;
    V.RepairEffect(t);
    TurnRemembered(Take(t), s.seen, s.attempts);
    var ws := RepairStep(t, V.SAME).writes;
    var t' := Step(t, Run(Drive(V.SAME)));
    assert t'.d == ApplyAll(t.d, ws);
    StateAfter(t.d, ws, |ws|);
    JournalAfter(t.d, ws);
    QuietJournal(t.d.journal, ws);
    BareStepTracks(Take(t).detector, s.seen, s.live, s.run);
    JournaledFeed(TakeFed(t), V.BARE);
    TakenLive(t');
  }

  lemma {:induction false} CheckFailed(t: Task, s: Story)
    requires Tells(t, s) && t.d.state.Verifying? && Take(t).plan == None
    ensures var t' := Step(t, Run(Drive(V.SAME)));
      && t'.d.state.Diagnosing? && t'.mem.Some? && t'.mem.value.executed == 1 && t'.mem.value.lastFailures == 1
      && Tells(t', s)
      && t'.d == ApplyAll(t.d, V.FAILURE)
  {
    hide Observe, Tracks, Take, TakeFed, LastTool, Feed, D.Journaled, Observations, TouchedFiles, Entries, ApplyAll, Step;
    V.FailedAgain(t);
    JournalAfter(t.d, V.FAILURE);
    QuietJournal(t.d.journal, V.FAILURE);
    TakenLive(Step(t, Run(Drive(V.SAME))));
  }

  /** Diagnosis, repair turn, failing check: about to diagnose again. */
  lemma {:induction false} OneRound(t: Task, s: Story, fp: Fingerprint, changed: set<Path>)
    requires Tells(t, s) && t.d.state.Diagnosing? && Take(t).executed == 1 && Take(t).lastFailures == 1
    requires s.attempts < MAX_REPAIR_ATTEMPTS && fp !in s.seen && fp != ""
    requires Noticed(s, fp, changed, 1, 1).run < 3
    ensures var t' := Step(Step(t, Run(Drive(Failing(fp, changed)))), Run(Drive(V.SAME)));
      && t'.d.state.Verifying? && t'.mem.Some? && t'.mem.value.plan == None
      && Tells(t', Noticed(s, fp, changed, 1, 1).(attempts := s.attempts + 1))
    ensures var t' := Step(Step(Step(t, Run(Drive(Failing(fp, changed)))), Run(Drive(V.SAME))), Run(Drive(V.SAME)));
      && t'.d.state.Diagnosing? && t'.mem.Some? && t'.mem.value.executed == 1 && t'.mem.value.lastFailures == 1
      && Tells(t', Noticed(s, fp, changed, 1, 1).(attempts := s.attempts + 1))
  {
    hide Step, Tells, StalledAfter;
    DiagnosedNew(t, s, fp, changed);
    var t1 := Step(t, Run(Drive(Failing(fp, changed))));
    TakenLive(t1);
    TurnTaken(t1, Noticed(s, fp, changed, 1, 1));
    CheckFailed(Step(t1, Run(Drive(V.SAME))), Noticed(s, fp, changed, 1, 1).(attempts := s.attempts + 1));
  }

  // ---------------------------------------------------------------- the runs

  /** A run: these events one after another. */
  lemma {:induction false} OneMore(events: seq<Event>, ev: Event)
    ensures After(events + [ev]) == Step(After(events), ev)
  {
    hide Step;
    assert (events + [ev])[..|events|] == events;
  }

  const BEGINNING: Story := Story({}, [], 0, [], 0, {}, {}, 0)

  /** About to diagnose the first failure. */
  lemma {:induction false} FirstDiagnosis()
    ensures var t := After(V.Repeated(6));
      && t.d.state.Diagnosing? && t.mem.Some? && t.mem.value.executed == 1 && t.mem.value.lastFailures == 1
      && t.fed == [] && Observations(t.d.journal) == []
      && Tells(t, BEGINNING)
  {
    hide Step, LastTool, ReplayLedger, V.Repeated, Feed, Entries;
    V.RunReachesFirst();
    V.OnceMore(5);
    var t := After(V.Repeated(5));
    V.FailedAgain(t);
    JournalAfter(t.d, V.FAILURE);
    D.SameObservations(t.d.journal, V.FAILURE);
    NothingSeen(After(V.Repeated(6)));
  }

  lemma {:induction false} NothingSeen(t: Task)
    requires V.BeforeDiagnosis(t, 0) && Observations(t.d.journal) == []
    ensures t.fed == [] && Tells(t, BEGINNING)
  {
    hide LastTool, ReplayLedger;
    FeedNothing(D.FRESH);
    D.JournaledNothing();
    assert V.Rounds(0) == [] && V.StepsOf(0) == [] && V.Recorded(0) == R.NewLedger(MAX_REPAIR_ATTEMPTS);
    D.TouchedIsListed(t.d.journal);
  }

  const FIRST: Story := Noticed(BEGINNING, "one", {"a", "b"}, 1, 1)

  lemma {:induction false} TwoFiles()
    ensures |{"a", "b"}| == 2 && |{"a"}| == 1 && {"a"} + {"a", "b"} == {"a", "b"}
    ensures "a" != "b"
  {
    assert "a"[0] != "b"[0];
    assert {"a", "b"} - {"a"} == {"b"};
  }

  /** The diagnosis of the first failure lists two files; the process dies before it goes on, and the one
      that takes over, whose change ledger is empty, lists none. */
  function Shrinking(): seq<Event> {
    V.Repeated(6) + [Crash(Drive(Failing("one", {"a", "b"})), 1)] + [Run(Drive(Failing("two", {})))]
  }

  lemma {:induction false} ShrinkingStory()
    ensures var t := After(Shrinking());
      t.mem.Some? && Tells(t, Noticed(Restarted(FIRST), "two", {}, 0, 0)) && forall i :: 0 <= i < |t.fed| ==> !t.fed[i].AfterRepair?
  {
    hide Step, Tells, V.Repeated, StalledAfter;
    FirstDiagnosis();
    var t := After(V.Repeated(6));
    L.LedgerSurvivesCrashes(V.Repeated(6));
    DiagnosedThenLost(t, BEGINNING, "one", {"a", "b"});
    OneMore(V.Repeated(6), Crash(Drive(Failing("one", {"a", "b"})), 1));
    OneMore(V.Repeated(6) + [Crash(Drive(Failing("one", {"a", "b"})), 1)], Run(Drive(Failing("two", {}))));
    var t1 := Step(t, Crash(Drive(Failing("one", {"a", "b"})), 1));
    Stalls();
    DiagnosedNew(t1, Restarted(FIRST), "two", {});
    NoBareObserved(t1.d.journal);
  }

  lemma {:induction false} Stalls()
    ensures var both := Metric(1, 1, {"a", "b"});
      FIRST == Story({"one"}, [both], 0, [both], 0, {"a", "b"}, {"a", "b"}, 0)
    ensures var s := Noticed(Restarted(FIRST), "two", {}, 0, 0);
      && s.run == 0
      && s.live == [Metric(1, 1, {"a", "b"}), Metric(0, 0, {})]
      && s.replayed == [Metric(1, 1, {"a", "b"}), Metric(0, 0, {"a", "b"})]
  {
    var none: set<Path> := {};
    assert none + {"a", "b"} == {"a", "b"} && none + none + {"a", "b"} == {"a", "b"};
    assert none + none == none && {"a", "b"} + none + none == {"a", "b"};
    assert {} + {"one"} == {"one"};
  }

  lemma {:induction false} NoBareObserved(j: Log)
    ensures forall i :: 0 <= i < |Observations(j)| ==> !Observations(j)[i].AfterRepair?
  {
    if j != [] {
      NoBareObserved(j[..|j| - 1]);
    }
  }

  /** One crash and no repair turn, and yet the remembered detector is not the one a replay rebuilds. */
  lemma {:induction false} CrashShrinksLists()
    ensures var t := After(Shrinking());
      && Crashes(Shrinking()) == 1 && t.mem.Some?
      && (forall i :: 0 <= i < |t.fed| ==> !t.fed[i].AfterRepair?)
      && t.mem.value.detector != ReplayDetector(t.d.journal)
      && !D.ListsAreCumulative(t.d.journal, D.MemorySince(Shrinking()))
  {
    hide After, V.Repeated, Feed, Observations, D.ListsAreCumulative, D.MemorySince, D.GivenSince, D.Journaled, D.Listed, ToolInterrupted;
    var t := After(Shrinking());
    ShrinkingStory();
    TwoFiles();
    Stalls();
    var s := Noticed(Restarted(FIRST), "two", {}, 0, 0);
    assert s.live[1] != s.replayed[1];
    D.DetectorReplay(Shrinking());
    V.NoCrashes(6);
    var begun := V.Repeated(6) + [Crash(Drive(Failing("one", {"a", "b"})), 1)];
    assert begun[..|begun| - 1] == V.Repeated(6);
    assert Shrinking()[..|Shrinking()| - 1] == begun;
  }

  // ---- a crash that changes what is decided, although no step after a repair turn matters

  /** The first failure is diagnosed; the process dies before the repair turn; the next one makes it, and
      the check fails again. */
  function HandedOver(): seq<Event> {
    V.Repeated(6) + [Run(Drive(Failing("one", {"a", "b"})))] + [Crash(Drive(V.SAME), 0)] + [Run(Drive(V.SAME))]
    + [Run(Drive(V.SAME))]
  }

  lemma {:induction false} AfterHandover()
    ensures var t := After(HandedOver());
      && t.d.state.Diagnosing? && t.mem.Some? && t.mem.value.executed == 1 && t.mem.value.lastFailures == 1
      && Tells(t, Restarted(FIRST).(attempts := 1))
  {
    hide Step, Tells, V.Repeated, StalledAfter;
    var e0, e1 := V.Repeated(6), Run(Drive(Failing("one", {"a", "b"})));
    var again := Run(Drive(V.SAME));
    FirstDiagnosis();
    Stalls();
    var t := After(e0);
    DiagnosedNew(t, BEGINNING, "one", {"a", "b"});
    OneMore(e0, e1);
    var t1 := Step(t, e1);
    L.LedgerSurvivesCrashes(e0 + [e1]);
    OneMore(e0 + [e1], Crash(Drive(V.SAME), 0));
    V.CrashLoses(t1);
    RestartTells(t1, FIRST);
    var t2 := Task(t1.d, None, []);
    TurnTaken(t2, Restarted(FIRST));
    OneMore(e0 + [e1] + [Crash(Drive(V.SAME), 0)], again);
    CheckFailed(Step(t2, again), Restarted(FIRST).(attempts := 1));
    OneMore(e0 + [e1] + [Crash(Drive(V.SAME), 0)] + [again], again);
  }

  /** Two more failures, each with a repair turn: the files changed since the crash are none, then one of
      the two from before it. */
  function Forgetting(): seq<Event> {
    HandedOver() + [Run(Drive(Failing("two", {})))] + [Run(Drive(V.SAME))] + [Run(Drive(V.SAME))]
    + [Run(Drive(Failing("three", {"a"})))] + [Run(Drive(V.SAME))]
  }

  const SECOND: Story := Noticed(Restarted(FIRST).(attempts := 1), "two", {}, 1, 1).(attempts := 2)
  const THIRD: Story := Noticed(SECOND, "three", {"a"}, 1, 1).(attempts := 3)

  /** The process that is alive saw its list grow from none to one; a replay only ever saw two. */
  lemma {:induction false} Snapshots()
    ensures SECOND.run == 1 && THIRD.run == 0 && THIRD.replayedRun == 2
    ensures Noticed(THIRD, "four", {}, 1, 1).run == 1
    ensures Noticed(Restarted(THIRD), "four", {}, 1, 1).run == 3
    ensures THIRD.seen == {"one", "two", "three"} && SECOND.seen == {"one", "two"}
  {
    Stalls();
    TwoFiles();
    var none: set<Path> := {};
    assert none + none == none && {"a", "b"} + none + none == {"a", "b"};
    assert SECOND.live == [Metric(1, 1, {"a", "b"}), Metric(1, 1, none)];
    assert SECOND.replayed == [Metric(1, 1, {"a", "b"}), Metric(1, 1, {"a", "b"})];
    assert SECOND.replayedRun == 1;
    assert none + {"a"} == {"a"} && {"a", "b"} + none + {"a"} == {"a", "b"};
    assert {"a"} + none == {"a"};
  }

  lemma {:induction false} DifferentFailures()
    ensures "two" !in {"one"} && "three" !in {"one", "two"} && "four" !in {"one", "two", "three"}
  {
    assert "two"[0] != "one"[0] && "three"[0] != "one"[0] && "three"[1] != "two"[1] && "four"[0] != "one"[0];
    assert "four"[0] != "two"[0] && "four"[0] != "three"[0];
  }

  lemma {:induction false} AfterForgetting()
    ensures var t := After(Forgetting());
      && t.d.state.Verifying? && t.mem.Some? && t.mem.value.plan == None && Tells(t, THIRD)
  {
    hide Step, Tells, StalledAfter, HandedOver;
    var e0, again := HandedOver(), Run(Drive(V.SAME));
    var e1, e2 := Run(Drive(Failing("two", {}))), Run(Drive(Failing("three", {"a"})));
    AfterHandover();
    Stalls();
    Snapshots();
    DifferentFailures();
    OneRound(After(e0), Restarted(FIRST).(attempts := 1), "two", {});
    OneMore(e0, e1);
    OneMore(e0 + [e1], again);
    OneMore(e0 + [e1] + [again], again);
    OneRound(After(e0 + [e1] + [again] + [again]), SECOND, "three", {"a"});
    OneMore(e0 + [e1] + [again] + [again], e2);
    OneMore(e0 + [e1] + [again] + [again] + [e2], again);
  }

  /** The journal's lists of touched files shrink at a crash, because the change ledger lives in process
      memory, and a replay keeps their union. So a process that is alive can see the list of changed
      files grow where a replay sees nothing new: on this run the live process goes on, whether or not
      its detector was given the steps after repair turns; had it died before the last check, the one
      that takes over would report a stall on the same failure and escalate. */
  lemma {:induction false} CrashChangesTheDecision()
    ensures var live := After(Forgetting() + [Run(Drive(V.SAME))]);
      var over := After(Forgetting() + [Crash(Drive(V.SAME), 0)] + [Run(Drive(V.SAME))]);
      var e := Failing("four", {});
      && live.d.state.Diagnosing? && over.d == live.d
      && DiagnosisFinding(live, e) == None && DiagnosisDecision(live, e) == R.Continue
      && Observe(Feed(D.FRESH, D.Journaled(TakeFed(live))), DiagnosisCycle(live, e)).1 == None
      && DiagnosisFinding(over, e) == Some(FrontierStalled(3)) && DiagnosisDecision(over, e) == R.EscalateStrategy
  {
    hide Step, Tells, StalledAfter, DiagnosisFinding, DiagnosisDecision, DiagnosisCycle, Observe, Feed, D.Journaled, ApplyAll;
    var before, again := Forgetting(), Run(Drive(V.SAME));
    var t := After(before);
    AfterForgetting();
    Snapshots();
    DifferentFailures();
    OneMore(before, again);
    CheckFailed(t, THIRD);
    var live := Step(t, again);
    TakenLive(live);
    NewFailureDecided(live, THIRD, "four", {});
    OneMore(before, Crash(Drive(V.SAME), 0));
    OneMore(before + [Crash(Drive(V.SAME), 0)], again);
    V.CrashLoses(t);
    L.LedgerSurvivesCrashes(before);
    RestartTells(t, THIRD);
    var t' := Task(t.d, None, []);
    CheckFailed(t', Restarted(THIRD));
    var over := Step(t', again);
    TakenLive(over);
    NewFailureDecided(over, Restarted(THIRD), "four", {});
  }
}
