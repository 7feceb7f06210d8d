/** A run on which a crash changes what the loop detector reports: the steps after repair turns, which
    the journal does not carry, keep equal failures apart in the live detector, and nothing does in the
    rebuilt one. */
module AgentDivergence {
  import opened Options
  import opened LoopDetect
  import R = Repair
  import opened Journal
  import opened Agent
  import opened AgentTermination
  import D = AgentDetector
  import L = AgentLedger

  /** One check that always fails in the same way, a model that always says it is done, and files that
      never change. */
  const SAME: Env := Env(false, None, None, true, {}, Finish, Executed, false, ["check"], Fails(1), "failure", {}, "files", "")

  const CYCLE: Observation := Cycle("failure", "files", Metric(1, 1, {}))
  const BARE: Observation := AfterRepair("files")

  /** What the live detector has been fed before the `n`-th diagnosis, counting from 0. */
  function Rounds(n: nat): seq<Observation> {
    if n == 0 then [] else Rounds(n - 1) + [CYCLE, BARE]
  }

  function Recorded(n: nat): R.Ledger {
    if n == 0 then R.NewLedger(MAX_REPAIR_ATTEMPTS)
    else Recorded(n - 1).Record(R.Attempt(0, "failure", "no edit (model finished)", R.NoChange))
  }

  // ---------------------------------------------------------------- what the detector answers

  const FAILED: Signature := FailureStep("failure", "files")
  const SEEN: Signature := FileStateStep("files")

  lemma {:induction false} NothingActs(steps: seq<Signature>, n: nat)
    requires forall i :: 0 <= i < |steps| ==> steps[i] == FAILED || steps[i] == SEEN
    ensures !ActedLately(steps, n)
  {
  }

  lemma {:induction false} NoPeriod(keys: seq<StepKey>)
    requires |keys| <= 5 && (|keys| >= 3 ==> keys[|keys| - 1] == keys[|keys| - 3] || Constant(keys))
    ensures LeastPeriod(keys, 1, 3) == None
  {
    assert !EndsInCycle(keys, 1);
    assert !EndsInCycle(keys, 2);
    assert !EndsInCycle(keys, 3);
  }

  lemma {:induction false} RunOfOne<T>(s: seq<T>, x: T)
    requires s != [] && s[|s| - 1] == x && (|s| > 1 ==> s[|s| - 2] != x)
    ensures TrailingRun(s, x) == 1
  {
    var before := s[..|s| - 1];
    assert before != [] ==> before[|before| - 1] == s[|s| - 2];
  }

  lemma {:induction false} RunOfAll<T>(s: seq<T>, x: T)
    requires forall i :: 0 <= i < |s| ==> s[i] == x
    ensures TrailingRun(s, x) == |s|
  {
    if s != [] {
      RunOfAll(s[..|s| - 1], x);
    }
  }

  /** A detector after some of those steps: the failures are all the same, nothing ever acts. */
  ghost predicate Uneventful(d: Detector, cycles: nat, steps: seq<Signature>) {
    && d.config == DEFAULT_THRESHOLDS && d.steps == steps
    && (forall i :: 0 <= i < |steps| ==> steps[i] == FAILED || steps[i] == SEEN)
    && |d.failures| == cycles && (forall i :: 0 <= i < cycles ==> d.failures[i] == "failure")
    && |d.progress| == cycles && (forall i :: 0 <= i < cycles ==> d.progress[i] == CYCLE.metric)
    && d.stalledRun + 1 == (if cycles == 0 then 1 else cycles)
  }

  /** A cycle that neither repeats the last step nor is the third failure reports nothing. */
  lemma {:induction false} QuietCycle(d: Detector, cycles: nat, steps: seq<Signature>)
    requires Uneventful(d, cycles, steps) && cycles <= 1 && |steps| <= 2
    requires steps != [] ==> steps[|steps| - 1] == SEEN
    requires |steps| == 2 ==> steps[0] == FAILED
    ensures Observe(d, CYCLE).1 == None && Uneventful(Observe(d, CYCLE).0, cycles + 1, steps + [FAILED])
  {
    hide StepObserved, TrailingRun;
    QuietStep(d, cycles, steps);
    RunOfAll(d.failures + ["failure"], "failure");
  }

  lemma {:induction false} QuietStep(d: Detector, cycles: nat, steps: seq<Signature>)
    requires Uneventful(d, cycles, steps) && |steps| <= 2
    requires steps != [] ==> steps[|steps| - 1] == SEEN
    requires |steps| == 2 ==> steps[0] == FAILED
    ensures var (d', f) := StepObserved(d, FAILED); f == None && Uneventful(d', cycles, steps + [FAILED])
  {
    hide LeastPeriod, TrailingRun, ActedLately;
    var d1 := StepObserved(d, FAILED).0;
    NothingActs(d1.steps, d1.noChangeRun + 1);
    var keys := Keys(d1.steps);
    RunOfOne(keys, FAILED.key);
    NoPeriod(keys);
  }

  lemma {:induction false} QuietBare(d: Detector, cycles: nat, steps: seq<Signature>)
    requires Uneventful(d, cycles, steps)
    ensures Uneventful(Observe(d, BARE).0, cycles, steps + [SEEN])
  {
    hide LeastPeriod, TrailingRun, ActedLately;
  }

  /** The live detector, which saw the files between the failures, reports the third failure. */
  lemma {:induction false} LiveReport(d: Detector)
    requires Uneventful(d, 2, [FAILED, SEEN, FAILED, SEEN])
    ensures Observe(d, CYCLE).1 == Some(RepeatedFailure("failure", 3))
  {
    hide LeastPeriod, TrailingRun, ActedLately;
    var d1 := StepObserved(d, FAILED).0;
    NothingActs(d1.steps, d1.noChangeRun + 1);
    var keys := Keys(d1.steps);
    RunOfOne(keys, FAILED.key);
    NoPeriod(keys);
    RunOfAll(d.failures + ["failure"], "failure");
  }

  lemma {:induction false} CycleAddsStep(d: Detector)
    ensures Observe(d, CYCLE).0.config == d.config && Observe(d, CYCLE).0.steps == d.steps + [FAILED]
  {
    hide LeastPeriod, TrailingRun, ActedLately;
  }

  /** The replayed one, which did not, reports a repeated step. */
  lemma {:induction false} ReplayReport(d: Detector)
    requires d == Feed(D.FRESH, [CYCLE, CYCLE])
    ensures Observe(d, CYCLE).1 == Some(ExactRepeat(FAILED.key, 3))
  {
    hide Observe, Feed, LeastPeriod, TrailingRun, ActedLately;
    FeedNothing(D.FRESH);
    FeedOne(D.FRESH, [], CYCLE);
    FeedOne(D.FRESH, [CYCLE], CYCLE);
    assert [] + [CYCLE] == [CYCLE] && [CYCLE] + [CYCLE] == [CYCLE, CYCLE];
    CycleAddsStep(D.FRESH);
    CycleAddsStep(Feed(D.FRESH, [CYCLE]));
    ThirdStep(d);
  }

  lemma {:induction false} ThirdStep(d: Detector)
    requires d.config == DEFAULT_THRESHOLDS && d.steps == [FAILED, FAILED]
    ensures Observe(d, CYCLE).1 == Some(ExactRepeat(FAILED.key, 3))
  {
    hide LeastPeriod, TrailingRun, ActedLately;
    var d1 := StepObserved(d, FAILED).0;
    NothingActs(d1.steps, d1.noChangeRun + 1);
    RunOfAll(Keys(d1.steps), FAILED.key);
  }

  // ---------------------------------------------------------------- the run

  function StepsOf(n: nat): seq<Signature> {
    if n == 0 then [] else StepsOf(n - 1) + [FAILED, SEEN]
  }

  /** Before the `n`-th diagnosis of the run, in the process that started it. */
  ghost predicate BeforeDiagnosis(t: Task, n: nat) {
    && t.d.state.Diagnosing? && t.mem.Some? && t.fed == Rounds(n)
    && Uneventful(t.mem.value.detector, n, StepsOf(n))
    && t.mem.value.repair == Recorded(n) && t.mem.value.touched == {}
    && t.mem.value.executed == 1 && t.mem.value.lastFailures == 1
    && !ToolInterrupted(t.d.journal)
  }

  lemma {:induction false} QuietRecord(n: nat)
    requires n <= 2
    ensures Recorded(n).CountFor("failure") == n && |Recorded(n).attempts| == n
    ensures !Recorded(n).escalated && !Recorded(n).switchedRole && Recorded(n).maxAttempts == MAX_REPAIR_ATTEMPTS
    ensures n > 0 ==> Recorded(n).attempts[n - 1].outcome == R.NoChange
  {
    if n > 0 {
      QuietRecord(n - 1);
      assert Recorded(n).attempts[..n - 1] == Recorded(n - 1).attempts;
    }
  }

  lemma {:induction false} DiagnosedQuietly(t: Task, n: nat)
    requires BeforeDiagnosis(t, n) && n <= 1
    ensures var t' := Step(t, Run(Drive(SAME)));
      && t'.d.state.Repairing? && t'.mem.Some? && t'.fed == Rounds(n) + [CYCLE]
      && t'.mem.value.repair == Recorded(n) && t'.mem.value.touched == {} && t'.mem.value.pending == Some("failure")
      && Uneventful(t'.mem.value.detector, n + 1, StepsOf(n) + [FAILED])
      && !ToolInterrupted(t'.d.journal)
  {
    hide Observe, Uneventful, Recorded, LastTool, DiagnoseStep, Entries, ApplyAll;
    assert n == 1 ==> StepsOf(1) == [FAILED, SEEN] by {
      assert StepsOf(0) == [];
    }
    QuietCycle(t.mem.value.detector, n, StepsOf(n));
    DiagnosisEffect(t, n);
    var ws := DiagnoseStep(t, SAME).writes;
    assert Step(t, Run(Drive(SAME))).d == ApplyAll(t.d, ws);
    StateAfter(t.d, ws, |ws|);
    JournalAfter(t.d, ws);
    SameTool(t.d.journal, ws);
  }

  lemma {:induction false} DiagnosisEffect(t: Task, n: nat)
    requires BeforeDiagnosis(t, n) && n <= 1 && Observe(t.mem.value.detector, CYCLE).1 == None
    ensures var eff := DiagnoseStep(t, SAME);
      && eff.writes == [Append(Diagnosed("failure", "files", CYCLE.metric)), Append(Decided(R.Continue)), Goto(Repairing)]
      && eff.fed == Rounds(n) + [CYCLE]
      && eff.mem == Some(t.mem.value.(pending := Some("failure"), detector := Observe(t.mem.value.detector, CYCLE).0))
  {
    hide Observe, Uneventful, Recorded, LastTool;
    QuietRecord(n);
    assert DiagnosisCycle(t, SAME) == CYCLE;
    assert DiagnosisDecision(t, SAME) == R.Continue;
  }

  lemma {:induction false} RecordedNext(n: nat)
    ensures Recorded(n + 1) == Recorded(n).Record(R.Attempt(0, "failure", "no edit (model finished)", R.NoChange))
  {
  }

  lemma {:induction false} RepairedQuietly(t: Task, n: nat, steps: seq<Signature>)
    requires t.d.state.Repairing? && t.mem.Some? && !ToolInterrupted(t.d.journal)
    requires t.mem.value.pending == Some("failure") && t.mem.value.touched == {}
    requires t.mem.value.repair == Recorded(n) && Uneventful(t.mem.value.detector, n + 1, steps)
    ensures var t' := Step(t, Run(Drive(SAME)));
      && t'.d.state.Verifying? && t'.mem.Some? && t'.fed == t.fed + [BARE]
      && t'.mem.value.repair == Recorded(n + 1) && t'.mem.value.touched == {} && t'.mem.value.plan == None
      && Uneventful(t'.mem.value.detector, n + 1, steps + [SEEN])
      && !ToolInterrupted(t'.d.journal)
  {
    hide Observe, Uneventful, LastTool, Recorded, Entries, ApplyAll, RepairStep;
    QuietBare(t.mem.value.detector, n + 1, steps);
    RecordedNext(n);
    RepairEffect(t);
    var ws := RepairStep(t, SAME).writes;
    assert Step(t, Run(Drive(SAME))).d == ApplyAll(t.d, ws);
    StateAfter(t.d, ws, |ws|);
    JournalAfter(t.d, ws);
    SameTool(t.d.journal, ws);
  }

  lemma {:induction false} RepairEffect(t: Task)
    requires t.d.state.Repairing? && !ToolInterrupted(t.d.journal)
    ensures var eff := RepairStep(t, SAME);
      && eff.writes == [Append(ModelCall(RepairTurn)), Append(ContextRetrieved), Append(ModelAnswered(RepairTurn)),
                        Append(Attempted(AttemptFor(Take(t), SAME))), Goto(Verifying)]
      && eff.mem == Some(AfterRepairTurn(Take(t), SAME)) && eff.fed == TakeFed(t) + [BARE]
  {
    hide AfterRepairTurn, AttemptFor, LastTool, Take, TakeFed;
  }

  /** What a failing check writes. */
  const FAILURE: seq<Write> :=
    [Append(VerifyIssued("check")), World(Ran("check", false)), Append(VerifyResult("check", false)), Goto(Diagnosing)]

  lemma {:induction false} FailedAgain(t: Task)
    requires t.d.state.Verifying? && !ToolInterrupted(t.d.journal) && Take(t).plan == None
    ensures var t' := Step(t, Run(Drive(SAME)));
      && t'.d.state.Diagnosing? && t'.mem.Some? && t'.fed == TakeFed(t)
      && t'.d == ApplyAll(t.d, FAILURE)
      && t'.mem.value == Take(t).(plan := Some(["check"]), executed := 1, lastPassed := false, lastFailures := 1)
      && !ToolInterrupted(t'.d.journal)
  {
    hide Take, TakeFed, LastTool, ApplyAll, Entries;
    assert VerifyStep(t, SAME).writes == FAILURE;
    StateAfter(t.d, FAILURE, 4);
    JournalAfter(t.d, FAILURE);
    SameTool(t.d.journal, FAILURE);
  }

  /** The same answers from the world at every step. */
  function Always(e: Env): nat -> Env {
    _ => e
  }

  /** A diagnosis and a repair turn later, about to verify again. */
  lemma {:induction false} BackToVerifying(t: Task, n: nat)
    requires BeforeDiagnosis(t, n) && n <= 1
    ensures var t' := Driven(t, Always(SAME), 2);
      && t'.d.state.Verifying? && t'.mem.Some? && t'.mem.value.plan == None && t'.fed == Rounds(n + 1)
      && t'.mem.value.repair == Recorded(n + 1) && t'.mem.value.touched == {}
      && Uneventful(t'.mem.value.detector, n + 1, StepsOf(n + 1))
      && !ToolInterrupted(t'.d.journal)
  {
    hide Step, Uneventful, LastTool;
    var envs := Always(SAME);
    var t1 := Step(t, Run(Drive(SAME)));
    var t2 := Step(t1, Run(Drive(SAME)));
    assert Driven(t, envs, 0) == t;
    assert Driven(t, envs, 1) == t1;
    assert Driven(t, envs, 2) == t2;
    DiagnosedQuietly(t, n);
    RepairedQuietly(t1, n, StepsOf(n) + [FAILED]);
    assert StepsOf(n) + [FAILED] + [SEEN] == StepsOf(n + 1);
    assert Rounds(n) + [CYCLE] + [BARE] == Rounds(n + 1);
  }

  lemma {:induction false} OneRound(t: Task, n: nat)
    requires BeforeDiagnosis(t, n) && n <= 1
    ensures BeforeDiagnosis(Driven(t, Always(SAME), 3), n + 1)
  {
    hide Step, Uneventful, LastTool;
    BackToVerifying(t, n);
    var t2 := Driven(t, Always(SAME), 2);
    FailedAgain(t2);
    assert Driven(t, Always(SAME), 3) == Step(t2, Run(Drive(SAME)));
  }

  // ---------------------------------------------------------------- from a new task to the first failure

  /** Nothing has been verified or repaired, and no process remembers anything. */
  ghost predicate Untried(t: Task) {
    && t.mem == None && t.fed == [] && t.d.plan == None
    && Observations(t.d.journal) == [] && !ToolInterrupted(t.d.journal)
    && ReplayLedger(t.d.journal, MAX_REPAIR_ATTEMPTS) == Recorded(0)
  }

  lemma {:induction false} StaysUntried(t: Task, ws: seq<Write>, to: State)
    requires Untried(t) && !t.d.state.Stable()
    requires DriveStep(t, SAME) == Effect(ws, None, [])
    requires D.NoObservations(ws) && NoToolEntries(ws) && L.Quiet(ws)
    requires forall w :: w in ws ==> !w.SavePlan?
    requires ws != [] && ws[|ws| - 1] == Goto(to)
    ensures var t' := Step(t, Run(Drive(SAME))); Untried(t') && t'.d.state == to
  {
    hide DriveStep, Observations, LastTool, ReplayLedger, Entries;
    assert Step(t, Run(Drive(SAME))).d == ApplyAll(t.d, ws);
    StateAfter(t.d, ws, |ws|);
    JournalAfter(t.d, ws);
    D.SameObservations(t.d.journal, ws);
    SameTool(t.d.journal, ws);
    SameLedger(t.d.journal, ws);
    SamePlan(t.d, ws);
  }

  lemma {:induction false} SamePlan(d: Durable, ws: seq<Write>)
    requires forall w :: w in ws ==> !w.SavePlan?
    ensures ApplyAll(d, ws).plan == d.plan
  {
    if ws != [] {
      SamePlan(d, ws[..|ws| - 1]);
      assert ws[|ws| - 1] in ws;
    }
  }

  /** The state the run moves to from each of the first five. */
  function NextState(s: State): State {
    match s
    case Idle => Understanding
    case Understanding => Discovery
    case Discovery => Planning
    case Planning => Implementing
    case _ => Verifying
  }

  lemma {:induction false} UntriedIs(t: Task)
    requires Untried(t)
    ensures t.mem == None && t.fed == [] && t.d.plan == None && !ToolInterrupted(t.d.journal)
  {
    hide Observations, LastTool, ReplayLedger;
  }

  lemma {:induction false} OnTheWay(t: Task)
    requires Untried(t)
    requires t.d.state.Idle? || t.d.state.Understanding? || t.d.state.Discovery? || t.d.state.Planning? || t.d.state.Implementing?
    ensures var t' := Step(t, Run(Drive(SAME))); Untried(t') && t'.d.state == NextState(t.d.state)
  {
    hide Observations, LastTool, ReplayLedger, Step, PlanningRound, ImplementPlanStep, Untried;
    assert t.mem == None && t.fed == [] && t.d.plan == None && !ToolInterrupted(t.d.journal) by {
      UntriedIs(t);
    }
    StaysUntried(t, DriveStep(t, SAME).writes, NextState(t.d.state));
  }

  lemma {:induction false} FirstFailure(t: Task)
    requires Untried(t) && t.d.state.Verifying?
    ensures BeforeDiagnosis(Step(t, Run(Drive(SAME))), 0)
  {
    hide Step, Observations, LastTool, ReplayLedger;
    FailedAgain(t);
    FeedNothing(D.FRESH);
  }

  /** The run: the same step of the driver, over and over. */
  function Repeated(n: nat): seq<Event> {
    seq(n, _ => Run(Drive(SAME)))
  }

  lemma {:induction false} AfterRepeated(m: nat, n: nat)
    ensures After(Repeated(m + n)) == Driven(After(Repeated(m)), Always(SAME), n)
  {
    hide Step, Repeated;
    if n > 0 {
      AfterRepeated(m, n - 1);
      OnceMore(m + n - 1);
    }
  }

  lemma {:induction false} OnceMore(n: nat)
    ensures After(Repeated(n + 1)) == Step(After(Repeated(n)), Run(Drive(SAME)))
  {
    hide Step;
    assert Repeated(n + 1)[..n] == Repeated(n);
  }

  lemma {:induction false} NewIsUntried()
    ensures After(Repeated(0)) == NEW_TASK && Untried(NEW_TASK)
  {
  }

  /** After six steps the task is about to diagnose its first failure; after nine, its second; after
      twelve, its third. */
  lemma {:induction false} RunReachesFirst()
    ensures Untried(After(Repeated(5))) && After(Repeated(5)).d.state.Verifying?
    ensures BeforeDiagnosis(After(Repeated(6)), 0)
  {
    hide Step, Untried, BeforeDiagnosis, Repeated;
    NewIsUntried();
    OnceMore(0);
    OnTheWay(After(Repeated(0)));
    OnceMore(1);
    OnTheWay(After(Repeated(1)));
    OnceMore(2);
    OnTheWay(After(Repeated(2)));
    OnceMore(3);
    OnTheWay(After(Repeated(3)));
    OnceMore(4);
    OnTheWay(After(Repeated(4)));
    OnceMore(5);
    FirstFailure(After(Repeated(5)));
  }

  lemma {:induction false} RunReachesSecond()
    ensures BeforeDiagnosis(After(Repeated(9)), 1)
  {
    hide Step, BeforeDiagnosis, Repeated;
    RunReachesFirst();
    OneRound(After(Repeated(6)), 0);
    AfterRepeated(6, 3);
  }

  lemma {:induction false} RunReachesThird()
    ensures BeforeDiagnosis(After(Repeated(12)), 2)
  {
    hide Step, BeforeDiagnosis, Repeated;
    RunReachesSecond();
    OneRound(After(Repeated(9)), 1);
    AfterRepeated(9, 3);
  }

  lemma {:induction false} JournaledTwice()
    ensures D.Journaled(Rounds(2)) == [CYCLE, CYCLE]
  {
    hide D.Journaled;
    var r1 := Rounds(1);
    D.JournaledNothing();
    assert Rounds(0) == [] && r1 == [CYCLE, BARE] && Rounds(2) == [CYCLE, BARE, CYCLE, BARE];
    D.JournaledOne([], CYCLE);
    D.JournaledOne([CYCLE], BARE);
    D.JournaledOne([CYCLE, BARE], CYCLE);
    D.JournaledOne([CYCLE, BARE, CYCLE], BARE);
    assert [] + [CYCLE] == [CYCLE] && [CYCLE] + [BARE] == [CYCLE, BARE];
    assert [CYCLE, BARE] + [CYCLE] == [CYCLE, BARE, CYCLE] && [CYCLE, BARE, CYCLE] + [BARE] == Rounds(2);
  }

  /** The run with a crash just before the third verification: the process that takes over verifies again
      on a detector rebuilt from the journal. */
  function Interrupted(): seq<Event> {
    Repeated(11) + [Crash(Drive(SAME), 0), Run(Drive(SAME))]
  }

  lemma {:induction false} BeforeThirdCheck()
    ensures var t := After(Repeated(11));
      && t.d.state.Verifying? && t.mem.Some? && t.mem.value.plan == None && !ToolInterrupted(t.d.journal)
      && Observations(t.d.journal) == [CYCLE, CYCLE]
  {
    hide Step, Untried, BeforeDiagnosis, Uneventful, Repeated, LastTool;
    RunReachesSecond();
    BackToVerifying(After(Repeated(9)), 1);
    AfterRepeated(9, 2);
    NoCrashes(11);
    D.ReplayWithoutCrash(Repeated(11));
    JournaledTwice();
  }

  lemma {:induction false} TakenOver()
    ensures var t := After(Interrupted());
      && t.d == After(Repeated(12)).d
      && t.mem.Some? && t.mem.value.executed == 1 && t.mem.value.lastFailures == 1 && t.mem.value.touched == {}
      && t.mem.value.detector == Feed(D.FRESH, [CYCLE, CYCLE])
  {
    hide Do, ApplyAll, LastTool, Feed, Repeated;
    BeforeThirdCheck();
    var t := After(Repeated(11));
    OnceMore(11);
    FailedAgain(t);
    var crashed := Step(t, Crash(Drive(SAME), 0));
    CrashLoses(t);
    var upTo := Repeated(11) + [Crash(Drive(SAME), 0)];
    assert upTo[..|upTo| - 1] == Repeated(11);
    assert Interrupted()[..|Interrupted()| - 1] == upTo;
    FailedAgain(crashed);
  }

  /** After these twelve steps the process still alive reports a repeated failure. Had it crashed before
      the twelfth, the one that takes over - on the same journal, the same check, the same failure - would
      report a repeated step instead. */
  lemma {:induction false} CrashChangesTheReport()
    ensures var t, t' := After(Repeated(12)), After(Interrupted());
      && t'.d == t.d && t.d.state.Diagnosing?
      && DiagnosisFinding(t, SAME) == Some(RepeatedFailure("failure", 3))
      && DiagnosisFinding(t', SAME) == Some(ExactRepeat(FAILED.key, 3))
  {
    hide Observe, Uneventful, After, Do, LastTool, Repeated, Interrupted, Feed;
    RunReachesThird();
    LiveThird(After(Repeated(12)));
    TakenOver();
    var t' := After(Interrupted());
    assert DiagnosisCycle(t', SAME) == CYCLE;
    ReplayReport(t'.mem.value.detector);
  }

  lemma {:induction false} NoCrashes(n: nat)
    ensures Crashes(Repeated(n)) == 0
  {
    if n > 0 {
      NoCrashes(n - 1);
      assert Repeated(n)[..n - 1] == Repeated(n - 1);
    }
  }

  lemma {:induction false} CrashLoses(t: Task)
    ensures var t' := Step(t, Crash(Drive(SAME), 0)); t'.d == t.d && t'.mem == None && t'.fed == []
  {
    hide Do;
    assert Do(t, Drive(SAME)).writes[..0] == [];
    assert ApplyAll(t.d, []) == t.d;
  }

  lemma {:induction false} LiveThird(t: Task)
    requires BeforeDiagnosis(t, 2)
    ensures DiagnosisFinding(t, SAME) == Some(RepeatedFailure("failure", 3))
  {
    hide Observe, Uneventful, LastTool;
    assert StepsOf(0) == [] && StepsOf(1) == [FAILED, SEEN] && StepsOf(2) == [FAILED, SEEN, FAILED, SEEN];
    assert DiagnosisCycle(t, SAME) == CYCLE;
    LiveReport(t.mem.value.detector);
  }
}
