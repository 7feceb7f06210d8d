/** Without a crash the repair loop asks the user about nothing but an oscillation: by the time both
    escalations are used up, so is the budget. */
module AgentAsking {
  import opened Options
  import opened LoopDetect
  import opened LoopDetectProofs
  import R = Repair
  import opened Journal
  import opened Plans
  import opened Agent
  import opened AgentLedger
  import opened AgentDetector
  import opened AgentTermination
  import opened Discipline

  // ---------------------------------------------------------------- a detector that has seen one failure

  function Errors(steps: seq<Signature>): nat {
    if steps == [] then 0
    else Errors(steps[..|steps| - 1]) + (if steps[|steps| - 1].key.error.Some? then 1 else 0)
  }

  lemma {:induction false} TrailingErrors(steps: seq<Signature>, key: StepKey)
    requires key.error.Some?
    ensures TrailingRun(Keys(steps), key) <= Errors(steps)
  {
    if steps != [] {
      TrailingErrors(steps[..|steps| - 1], key);
      assert Keys(steps)[..|steps| - 1] == Keys(steps[..|steps| - 1]);
    }
  }

  /** How much a detector holds of what it was fed. */
  lemma {:induction false} FedCounts(fed: seq<Observation>)
    ensures var d := Feed(FRESH, fed);
      && d.config == DEFAULT_THRESHOLDS
      && Errors(d.steps) == CyclesIn(fed) && |d.steps| == CyclesIn(fed) + BareSteps(fed)
      && |d.failures| <= CyclesIn(fed) && |d.progress| <= CyclesIn(fed)
  {
    hide TrailingRun, LeastPeriod, ActedLately;
    if fed != [] {
      var before, o := fed[..|fed| - 1], fed[|fed| - 1];
      FedCounts(before);
      OneMoreFed(Feed(FRESH, before), o);
    }
  }

  lemma {:induction false} OneMoreFed(d: Detector, o: Observation)
    ensures var d' := Observe(d, o).0;
      && d'.config == d.config
      && Errors(d'.steps) == Errors(d.steps) + (if o.Cycle? then 1 else 0)
      && |d'.steps| == |d.steps| + (if o.Passed? then 0 else 1)
      && |d'.failures| <= |d.failures| + (if o.Cycle? then 1 else 0)
      && |d'.progress| <= |d.progress| + (if o.Cycle? then 1 else 0)
  {
    hide TrailingRun, LeastPeriod, ActedLately;
    match o
    case Passed =>
    case AfterRepair(h) => assert (d.steps + [FileStateStep(h)])[..|d.steps|] == d.steps;
    case Cycle(fp, h, _) => assert (d.steps + [FailureStep(fp, h)])[..|d.steps|] == d.steps;
  }

  lemma {:induction false} TooShortForCycles(keys: seq<StepKey>)
    requires |keys| <= 5
    ensures LeastPeriod(keys, 1, 3) == None
  {
    assert !EndsInCycle(keys, 1);
    assert !EndsInCycle(keys, 2);
    assert !EndsInCycle(keys, 3);
  }

  /** The first two diagnoses, with at most one repair turn between them, report nothing. */
  lemma {:induction false} QuietEarly(fed: seq<Observation>, fp: Fingerprint, fileState: Hash, metric: Metric)
    requires CyclesIn(fed) <= 1 && BareSteps(fed) <= 1
    ensures Observe(Feed(FRESH, fed), Cycle(fp, fileState, metric)).1 == None
  {
    hide Feed, LeastPeriod, TrailingRun, ActedLately, NothingActed;
    var d, sig := Feed(FRESH, fed), FailureStep(fp, fileState);
    FedCounts(fed);
    QuietStep(fed, sig);
    CountersAreExact(DEFAULT_THRESHOLDS, fed);
    assert TrailingRun(d.failures + [fp], fp) <= 2;
  }

  lemma {:induction false} QuietStep(fed: seq<Observation>, sig: Signature)
    requires CyclesIn(fed) <= 1 && BareSteps(fed) <= 1 && sig.key.error.Some? && !sig.Acts()
    ensures StepObserved(Feed(FRESH, fed), sig).1 == None
  {
    hide Feed, LeastPeriod, TrailingRun, Errors;
    var d := Feed(FRESH, fed);
    FedCounts(fed);
    FedStepsNeverAct(DEFAULT_THRESHOLDS, fed);
    var steps := d.steps + [sig];
    TooShortForCycles(Keys(steps));
    TrailingErrors(steps, sig.key);
    ErrorsAppend(d.steps, sig);
  }

  lemma {:induction false} ErrorsAppend(steps: seq<Signature>, sig: Signature)
    ensures Errors(steps + [sig]) <= Errors(steps) + 1
  {
    assert (steps + [sig])[..|steps|] == steps;
  }

  // ---------------------------------------------------------------- tool calls are settled

  lemma {:induction false} ToolSettles(j: Log, pre: seq<Write>, s: State, r: ToolOutcome)
    ensures r.UnknownTool? || LastTool(j + Entries(pre + ToolAndStop(s, r))) != Some(ToolIssued)
  {
    hide LastTool, Entries;
    var ws := ToolAndStop(s, r);
    match r
    case Executed =>
      ToolIs(j, pre + ws[..2], ToolResult, []);
      assert pre + ws == (pre + ws[..2]) + [Append(ToolResult)] + [];
    case AskRequired =>
      ToolIs(j, pre + ws[..1], PermissionAsk, ws[2..]);
      assert pre + ws == (pre + ws[..1]) + [Append(PermissionAsk)] + ws[2..];
    case Denied =>
      ToolIs(j, pre + ws[..1], ToolDenied, ws[2..]);
      assert pre + ws == (pre + ws[..1]) + [Append(ToolDenied)] + ws[2..];
    case UnknownTool =>
  }

  lemma {:induction false} UnknownFails(d: Durable, pre: seq<Write>, s: State, r: ToolOutcome)
    requires r.UnknownTool?
    ensures ApplyAll(d, pre + ToolAndStop(s, r)).state.Failed?
  {
    var ws := pre + ToolAndStop(s, r);
    assert ws[|ws| - 1] == Goto(Failed);
    StateAfter(d, ws, |ws|);
  }

  /** The task is over, or no tool call is left issued without an outcome. */
  predicate Settled(d: Durable) {
    d.state.Terminal() || !ToolInterrupted(d.journal)
  }

  lemma {:induction false} SettledByTool(d: Durable, pre: seq<Write>, s: State, r: ToolOutcome)
    ensures Settled(ApplyAll(d, pre + ToolAndStop(s, r)))
  {
    hide LastTool, ApplyAll, Entries, ToolAndStop;
    JournalAfter(d, pre + ToolAndStop(s, r));
    ToolSettles(d.journal, pre, s, r);
    if r.UnknownTool? {
      UnknownFails(d, pre, s, r);
    }
  }

  lemma {:induction false} SettledQuietly(d: Durable, ws: seq<Write>)
    requires !ToolInterrupted(d.journal) && NoToolEntries(ws)
    ensures Settled(ApplyAll(d, ws))
  {
    JournalAfter(d, ws);
    SameTool(d.journal, ws);
  }

  lemma {:induction false} SettledImplement(t: Task, e: Env)
    requires t.d.state.Implementing? && !ToolInterrupted(t.d.journal)
    ensures Settled(ApplyAll(t.d, ImplementStep(t, e).writes))
  {
    hide LastTool, ApplyAll, Settled, ToolAndStop;
    var answered := [Append(ModelCall(ImplementTurn)), Append(ContextRetrieved), Append(ModelAnswered(ImplementTurn))];
    if e.reply.UseTool? {
      assert ImplementStep(t, e).writes == answered + ToolAndStop(t.d.state, e.tool);
      SettledByTool(t.d, answered, t.d.state, e.tool);
    } else {
      SettledQuietly(t.d, ImplementStep(t, e).writes);
    }
  }

  lemma {:induction false} OpenNoTools(j: Log, p: Plan, s: StepId)
    ensures NoToolEntries(OpenStep(j, p, s))
  {
  }

  lemma {:induction false} FoldNoTools(j: Log, p: Plan, chunk: seq<StepId>, ok: set<StepId>)
    ensures NoToolEntries(FoldChildren(j, p, chunk, ok))
  {
    hide OpenStep;
    if chunk != [] {
      OpenNoTools(j, p, chunk[0]);
      FoldNoTools(j, p, chunk[1..], ok);
    }
  }

  lemma {:induction false} WaveNoTools(j: Log, p: Plan, chunks: seq<seq<StepId>>, ok: set<StepId>)
    ensures NoToolEntries(WaveWrites(j, p, chunks, ok))
  {
    hide FoldChildren;
    if chunks != [] {
      FoldNoTools(j, p, chunks[0], ok);
      WaveNoTools(j, p, chunks[1..], ok);
    }
  }

  lemma {:induction false} SettledAction(t: Task, e: Env, s: StepId, pre: seq<Write>, action: StepAction)
    requires !ToolInterrupted(t.d.journal) && NoToolEntries(pre)
    ensures Settled(ApplyAll(t.d, pre + ActOn(t.d.state, s, action, e)))
  {
    hide LastTool, ApplyAll, Settled, ToolAndStop;
    if action.StepTool? {
      var scope := if e.outOfScope then [Append(ScopeExpansion)] else [];
      assert pre + ActOn(t.d.state, s, action, e) == (pre + scope) + ToolAndStop(t.d.state, e.tool);
      SettledByTool(t.d, pre + scope, t.d.state, e.tool);
    } else {
      SettledQuietly(t.d, pre + ActOn(t.d.state, s, action, e));
    }
  }

  lemma {:induction false} SettledSolo(t: Task, e: Env, p: Plan, s: StepId)
    requires t.d.state.Implementing? && !ToolInterrupted(t.d.journal)
    ensures Settled(ApplyAll(t.d, SoloStep(t, e, p, s)))
  {
    hide LastTool, ApplyAll, Settled, OpenStep, TurnsSinceStart, UnprocessedAction, ActOn;
    var j := t.d.journal;
    var open, ws := OpenStep(j, p, s), SoloStep(t, e, p, s);
    OpenNoTools(j, p, s);
    if TurnsSinceStart(j, s) >= MAX_STEP_TURNS {
      SettledQuietly(t.d, ws);
    } else if UnprocessedAction(j, s).Some? {
      SettledAction(t, e, s, open, UnprocessedAction(j, s).value);
    } else if e.reply.Unavailable? || e.reply.Malformed? {
      SettledQuietly(t.d, ws);
    } else {
      var action := ActionOf(e.reply);
      SettledAction(t, e, s, open + [Append(ModelCall(StepTurn(s))), Append(StepAnswered(s, action))], action);
    }
  }

  lemma {:induction false} SettledPlan(t: Task, e: Env, p: Plan)
    requires t.d.state.Implementing? && !ToolInterrupted(t.d.journal)
    ensures Settled(ApplyAll(t.d, ImplementPlanStep(t, e, p).writes))
  {
    hide LastTool, ApplyAll, Settled, SoloStep, WaveWrites, CompletedSteps, Incomplete, AllChunks, Batched;
    var j, ws := t.d.journal, ImplementPlanStep(t, e, p).writes;
    match p.NextIncomplete(CompletedSteps(j))
    case None =>
      SettledQuietly(t.d, ws);
    case Some(s) =>
      if !e.stillValid {
        SettledQuietly(t.d, ws);
      } else if |Incomplete(p, j, s)| > 1 {
        WaveNoTools(j, p, AllChunks(Batched(p, Incomplete(p, j, s))), e.childrenOk);
        SettledQuietly(t.d, ws);
      } else {
        SettledSolo(t, e, p, s);
      }
  }

  lemma {:induction false} QuietOnTools(s: State, ws: seq<Write>)
    requires AllMay(s, ws) && !s.Implementing? && !s.Repairing?
    ensures NoToolEntries(ws)
  {
    forall w | w in ws
      ensures !(w.Append? && IsToolEntry(w.entry))
    {
      assert MayWrite(s, w);
    }
  }

  lemma {:induction false} SettledClient(t: Task, a: Action)
    requires !a.Drive? && !ToolInterrupted(t.d.journal)
    ensures Settled(ApplyAll(t.d, Do(t, a).writes))
  {
    hide LastTool, ApplyAll, Settled, Entries;
    var ws := Do(t, a).writes;
    if a.Resolve? && ws != [] {
      JournalAfter(t.d, ws);
      if a.approve && a.tool.Executed? {
        ToolIs(t.d.journal, ws[..1], ToolResult, ws[2..]);
        assert ws == ws[..1] + [Append(ToolResult)] + ws[2..];
      } else {
        ToolIs(t.d.journal, [], ToolDenied, ws[1..]);
        assert ws == [] + [Append(ToolDenied)] + ws[1..];
      }
      SettledIs(ApplyAll(t.d, ws));
    } else {
      SettledQuietly(t.d, ws);
    }
  }

  lemma {:induction false} SettledIs(d: Durable)
    requires !ToolInterrupted(d.journal)
    ensures Settled(d)
  {
  }

  // ---------------------------------------------------------------- what a run without crashes keeps

  /** Whether a repair turn is due. */
  function Due(d: Durable): nat {
    if Place(d).Repairing? then 1 else 0
  }

  /** While at most one attempt was made there were no more diagnoses than attempts, but for one whose
      attempt is due; an escalation leaves at least three attempts made or due, and a switch of role four;
      and no attempt is ever recorded as a regression. */
  predicate InStep(t: Task) {
    t.d.state.Terminal() || (
      && !ToolInterrupted(t.d.journal)
      && var l, due := LedgerOf(t.d.journal), Due(t.d);
      && (|l.attempts| <= 1 ==> CyclesIn(TakeFed(t)) <= |l.attempts| + due && BareSteps(TakeFed(t)) <= |l.attempts|)
      && (l.escalated ==> |l.attempts| + due >= 3)
      && (l.switchedRole ==> |l.attempts| + due >= 4)
      && (forall k :: 0 <= k < |l.attempts| ==> !l.attempts[k].outcome.Regressed?))
  }

  /** What memory and journal agree on in every reachable task. */
  ghost predicate Coherent(t: Task) {
    LedgerAgrees(t) && Take(t).detector == Feed(FRESH, TakeFed(t))
  }

  lemma {:induction false} CountAtMost(attempts: seq<R.Attempt>, fp: Fingerprint)
    ensures R.CountAttempts(attempts, fp) <= |attempts|
  {
    if attempts != [] {
      CountAtMost(attempts[..|attempts| - 1], fp);
    }
  }

  /** With at most one attempt made, the diagnosis goes on without escalating or asking. */
  lemma {:induction false} EarlyDecision(t: Task, e: Env)
    requires t.d.state.Diagnosing? && InStep(t) && Coherent(t) && |LedgerOf(t.d.journal).attempts| <= 1
    ensures DiagnosisDecision(t, e) == R.Continue
  {
    hide Observe, Feed, LastTool, TakeFed, LedgerOf;
    TakesReplay(t);
    LedgerCounts(t.d.journal);
    QuietEarly(TakeFed(t), e.fingerprint, e.fileState, DiagnosisCycle(t, e).metric);
    CountAtMost(Take(t).repair.attempts, e.fingerprint);
  }

  /** What a diagnosis may decide. */
  lemma {:induction false} DecisionInStep(t: Task, e: Env)
    requires t.d.state.Diagnosing? && InStep(t) && Coherent(t)
    ensures var l := LedgerOf(t.d.journal);
      && (DiagnosisDecision(t, e).EscalateStrategy? ==> |l.attempts| >= 2)
      && (DiagnosisDecision(t, e).SwitchRole? ==> |l.attempts| >= 3)
      && (DiagnosisDecision(t, e).AskUser? ==>
            |l.attempts| >= 2 && DiagnosisFinding(t, e).Some? && DiagnosisFinding(t, e).value.Oscillation?)
      && (l.switchedRole ==> DiagnosisDecision(t, e).GiveUp?)
  {
    hide DiagnosisFinding, LastTool, TakeFed, LedgerOf, R.CountAttempts, Observe, Feed;
    TakesReplay(t);
    LedgerCounts(t.d.journal);
    if |LedgerOf(t.d.journal).attempts| <= 1 {
      EarlyDecision(t, e);
    }
  }

  lemma {:induction false} DiagnosisEnds(t: Task, e: Env)
    requires t.d.state.Diagnosing?
    ensures var t' := Step(t, Run(Drive(e))); var decision := DiagnosisDecision(t, e);
      && t'.d.state == (if decision.GiveUp? then Failed else if decision.AskUser? then WaitingForUser else Repairing)
      && LedgerOf(t'.d.journal) == ReplayEntry(LedgerOf(t.d.journal), Decided(decision))
      && LastTool(t'.d.journal) == LastTool(t.d.journal)
      && t'.fed == TakeFed(t) + [DiagnosisCycle(t, e)] && (decision.GiveUp? || t'.mem.Some?)
  {
    hide DiagnosisFinding, DiagnosisCycle, Observe, AfterDecision, Take, TakeFed, LastTool, Entries, ApplyAll;
    var ws := DiagnoseStep(t, e).writes;
    var last := DecisionWrites(DiagnosisDecision(t, e));
    assert Step(t, Run(Drive(e))).d == ApplyAll(t.d, ws);
    assert ws[|ws| - 1] == last[|last| - 1];
    StateAfter(t.d, ws, |ws|);
    JournalAfter(t.d, ws);
    DiagnosisNoTool(t, e);
    SameTool(t.d.journal, ws);
    DiagnosisReplayed(t, e);
  }

  lemma {:induction false} DiagnosisReplayed(t: Task, e: Env)
    ensures LedgerOf(t.d.journal + Entries(DiagnoseStep(t, e).writes)) ==
            ReplayEntry(LedgerOf(t.d.journal), Decided(DiagnosisDecision(t, e)))
  {
    hide DiagnosisDecision, Entries;
    var ws := DiagnoseStep(t, e).writes;
    var i := DiagnosedAt(t, e);
    ReplayPrefix(t.d.journal, ws, i, |ws|);
    assert ws[..|ws|] == ws;
  }

  /** Where the decision is journaled, if it is one a replay heeds. */
  lemma {:induction false} DiagnosedAt(t: Task, e: Env) returns (i: nat)
    ensures var ws := DiagnoseStep(t, e).writes;
      && OnlyAt(ws, i)
      && (if i < |ws| then ws[i] == Append(Decided(DiagnosisDecision(t, e)))
          else !IsLedgerEntry(Decided(DiagnosisDecision(t, e))))
  {
    hide DiagnosisDecision, DiagnosisFinding, DiagnosisCycle, AfterDecision, Observe;
    var ws := DiagnoseStep(t, e).writes;
    var at := if DiagnosisFinding(t, e).Some? then 2 else 1;
    assert ws[at] == Append(Decided(DiagnosisDecision(t, e)));
    i := if IsLedgerWrite(ws[at]) then at else |ws|;
  }

  lemma {:induction false} OneMoreObserved(fed: seq<Observation>, o: Observation)
    ensures CyclesIn(fed + [o]) == CyclesIn(fed) + (if o.Cycle? then 1 else 0)
    ensures BareSteps(fed + [o]) == BareSteps(fed) + (if o.AfterRepair? then 1 else 0)
  {
    assert (fed + [o])[..|fed|] == fed;
  }

  lemma {:induction false} DiagnosisKeepsStep(t: Task, e: Env)
    requires t.d.state.Diagnosing? && InStep(t) && Coherent(t)
    ensures InStep(Step(t, Run(Drive(e))))
  {
    hide Step, LastTool, LedgerOf, TakeFed, DiagnosisDecision, DiagnosisCycle, Take, Feed;
    DiagnosisEnds(t, e);
    DecisionInStep(t, e);
    OneMoreObserved(TakeFed(t), DiagnosisCycle(t, e));
    var t' := Step(t, Run(Drive(e)));
    assert DiagnosisCycle(t, e).Cycle? by {
      ACycle(t, e);
    }
    if t'.mem.Some? {
      Remembered(t');
    }
  }

  lemma {:induction false} ACycle(t: Task, e: Env)
    ensures DiagnosisCycle(t, e).Cycle?
  {
  }

  lemma {:induction false} Remembered(t: Task)
    requires t.mem.Some?
    ensures TakeFed(t) == t.fed
  {
  }

  lemma {:induction false} RepairRecorded(vs: VerifyState, j: Log, e: Env)
    requires RepairRecords(e)
    ensures LedgerOf(j + Entries(RepairWrites(vs, e))) == LedgerOf(j).Record(AttemptFor(vs, e))
    ensures !AttemptFor(vs, e).outcome.Regressed?
  {
    hide RepairWrites;
    var ws := RepairWrites(vs, e);
    RepairWritesOnce(vs, e);
    ReplayPrefix(j, ws, RecordedAt(vs, e), |ws|);
    assert ws[..|ws|] == ws;
  }

  lemma {:induction false} RepairFeedsBare(t: Task, e: Env)
    requires t.d.state.Repairing? && !ToolInterrupted(t.d.journal)
    ensures var t' := Step(t, Run(Drive(e)));
      && (t'.fed == TakeFed(t) || t'.fed == TakeFed(t) + [AfterRepair(e.fileState)])
      && (t'.mem.Some? || t'.d.state.Failed?)
  {
    hide TakeFed, LastTool, ApplyAll, Take, AttemptFor, AfterRepairTurn;
    if RepairStep(t, e).mem.None? {
      DenialEnds(t, e);
    }
  }

  lemma {:induction false} RepairKeepsStep(t: Task, e: Env)
    requires t.d.state.Repairing? && InStep(t)
    ensures InStep(Step(t, Run(Drive(e))))
  {
    hide Step, LastTool, LedgerOf, TakeFed, Take, RepairWrites, RepairRecords, Entries;
    RepairMoves(t, e);
    RepairFeedsBare(t, e);
    OneMoreObserved(TakeFed(t), AfterRepair(e.fileState));
    var t' := Step(t, Run(Drive(e)));
    if !t'.d.state.Terminal() {
      RepairTool(Take(t), t.d.journal, e);
      RepairRecorded(Take(t), t.d.journal, e);
      Remembered(t');
    }
  }

  lemma {:induction false} VerifyKeepsStep(t: Task, e: Env)
    requires t.d.state.Verifying? && InStep(t)
    ensures InStep(Step(t, Run(Drive(e))))
  {
    hide Step, VerifyStep, LastTool, LedgerOf, TakeFed, Entries, VerifyPassesOn;
    var ws := VerifyStep(t, e).writes;
    VerifyMoves(t, e);
    VerifyQuiet(t, e);
    SameLedger(t.d.journal, ws);
    SameTool(t.d.journal, ws);
    VerifyFedMore(t, e);
    OneMoreObserved(TakeFed(t), Passed);
    Remembered(Step(t, Run(Drive(e))));
  }

  lemma {:induction false} VerifyFedMore(t: Task, e: Env)
    requires t.d.state.Verifying?
    ensures var t' := Step(t, Run(Drive(e))); t'.mem.Some? && (t'.fed == TakeFed(t) || t'.fed == TakeFed(t) + [Passed])
  {
    hide Take, TakeFed, ApplyAll, FailureObserved;
  }

  /** A client keeps a due repair turn due, or ends the task. */
  lemma {:induction false} ClientKeepsPlace(t: Task, a: Action)
    requires !a.Drive?
    ensures var d' := ApplyAll(t.d, Do(t, a).writes); d'.state.Terminal() || Due(d') == Due(t.d)
  {
    var ws := Do(t, a).writes;
    if ws != [] {
      if a.Resume? && !t.d.state.Stable() {
        ApplyFew(t.d, ws[0], ws[1], ws[2]);
      } else {
        PlaceAfter(t.d, ws);
        StateAfter(t.d, ws, if ws[|ws| - 1].Goto? then |ws| else 0);
      }
    }
  }

  lemma {:induction false} DriveKeepsPlace(t: Task, e: Env)
    requires !t.d.state.Verifying? && !t.d.state.Diagnosing? && !t.d.state.Repairing? && !t.d.state.Terminal()
    ensures Due(ApplyAll(t.d, DriveStep(t, e).writes)) == Due(t.d)
  {
    hide ImplementStep, ImplementPlanStep, PlanningRound, DiagnoseStep, RepairStep, VerifyStep;
    var ws := DriveStep(t, e).writes;
    PlaceAfter(t.d, ws);
    OnlyDiagnosisSendsToRepairing(t, Drive(e));
    if t.d.state.Stable() {
      assert ws == [];
    }
  }

  lemma {:induction false} SettledDrive(t: Task, e: Env)
    requires !t.d.state.Verifying? && !t.d.state.Diagnosing? && !t.d.state.Repairing? && !t.d.state.Terminal()
    requires !ToolInterrupted(t.d.journal)
    ensures Settled(ApplyAll(t.d, DriveStep(t, e).writes))
  {
    hide ImplementStep, ImplementPlanStep, PlanningRound, DiagnoseStep, RepairStep, VerifyStep, LastTool, ApplyAll, Settled;
    if t.d.state.Implementing? {
      if t.d.plan.Some? {
        SettledPlan(t, e, t.d.plan.value);
      } else {
        SettledImplement(t, e);
      }
    } else {
      DriveMay(t, e);
      QuietOnTools(t.d.state, DriveStep(t, e).writes);
      SettledQuietly(t.d, DriveStep(t, e).writes);
    }
  }

  lemma {:induction false} NoLedgerWrite(j: Log, ws: seq<Write>)
    requires OnlyAt(ws, |ws|)
    ensures LedgerOf(j + Entries(ws)) == LedgerOf(j)
  {
    ReplayPrefix(j, ws, |ws|, |ws|);
    assert ws[..|ws|] == ws;
  }

  /** Everywhere else neither the ledger nor what the detector is fed changes. */
  lemma {:induction false} OthersKeepStep(t: Task, a: Action)
    requires InStep(t)
    requires !a.Drive? || !(t.d.state.Verifying? || t.d.state.Diagnosing? || t.d.state.Repairing?)
    ensures InStep(Step(t, Run(a)))
  {
    hide VerifyStep, DiagnoseStep, RepairStep, ImplementStep, ImplementPlanStep, PlanningRound, LastTool, LedgerOf, Entries, ApplyAll;
    var t', ws := Step(t, Run(a)), Do(t, a).writes;
    JournalAfter(t.d, ws);
    QuietElsewhere(t, a);
    NoLedgerWrite(t.d.journal, ws);
    if t.d.state.Terminal() {
      OverForGood(t, a);
    } else {
      if a.Drive? {
        DriveKeepsPlace(t, a.env);
        SettledDrive(t, a.env);
        DriveMay(t, a.env);
        NothingObserved(t.d.state, ws);
        MemoryIsKept(t, a.env);
      } else {
        ClientKeepsPlace(t, a);
        SettledClient(t, a);
        ClientObserves(t, a);
      }
      SameObservations(t.d.journal, ws);
      assert t'.mem == t.mem && t'.fed == t.fed;
      assert TakeFed(t') == TakeFed(t);
    }
  }

  lemma {:induction false} ClientObserves(t: Task, a: Action)
    requires !a.Drive?
    ensures NoObservations(Do(t, a).writes) && Do(t, a).mem == t.mem && Do(t, a).fed == t.fed
  {
    ClientMay(t, a);
  }

  lemma {:induction false} OverForGood(t: Task, a: Action)
    requires t.d.state.Terminal()
    ensures Step(t, Run(a)).d.state == t.d.state
  {
    assert Do(t, a).writes == [];
  }

  lemma {:induction false} ActionKeepsStep(t: Task, a: Action)
    requires InStep(t) && Coherent(t)
    ensures InStep(Step(t, Run(a)))
  {
    hide InStep, Step, Coherent;
    if a.Drive? && t.d.state.Diagnosing? {
      DiagnosisKeepsStep(t, a.env);
    } else if a.Drive? && t.d.state.Repairing? {
      RepairKeepsStep(t, a.env);
    } else if a.Drive? && t.d.state.Verifying? {
      VerifyKeepsStep(t, a.env);
    } else {
      OthersKeepStep(t, a);
    }
  }

  lemma {:induction false} CoherentAlways(events: seq<Event>)
    ensures Coherent(After(events))
  {
    hide Feed, Observations, Listed, GivenSince;
    LedgerSurvivesCrashes(events);
    DetectorAgreesAlways(events);
    TakenAgrees(After(events), MemorySince(events));
  }

  lemma {:induction false} InStepWithoutCrash(events: seq<Event>)
    requires Crashes(events) == 0
    ensures InStep(After(events))
  {
    hide Step, Coherent;
    if events == [] {
      NewInStep();
    } else {
      var before := events[..|events| - 1];
      InStepWithoutCrash(before);
      CoherentAlways(before);
      ActionKeepsStep(After(before), events[|events| - 1].action);
    }
  }

  lemma {:induction false} NewInStep()
    ensures InStep(NEW_TASK)
  {
  }

  /** On a run without crashes, however often the user was asked and answered: a diagnosis asks the user
      only about an oscillation, and once the role was switched it gives up. */
  lemma {:induction false} AsksOnlyAboutOscillation(events: seq<Event>, e: Env)
    requires Crashes(events) == 0 && After(events).d.state.Diagnosing?
    ensures var t := After(events);
      && (DiagnosisDecision(t, e).AskUser? ==>
            DiagnosisFinding(t, e).Some? && DiagnosisFinding(t, e).value.Oscillation?)
      && (Take(t).repair.switchedRole ==> DiagnosisDecision(t, e).GiveUp?)
  {
    hide InStep, Coherent, DiagnosisDecision, DiagnosisFinding, LedgerOf;
    InStepWithoutCrash(events);
    CoherentAlways(events);
    DecisionInStep(After(events), e);
    LedgerSurvivesCrashes(events);
  }

  // ---------------------------------------------------------------- the same, read from the journal

  /** A decision to ask the user comes right after the report of an oscillation. */
  predicate AsksRightly(j: Log, e: Entry) {
    e == Decided(R.AskUser) ==> j != [] && j[|j| - 1].LoopDetected? && j[|j| - 1].finding.Oscillation?
  }

  lemma {:induction false} NothingDecided(j: Log, ws: seq<Write>)
    requires forall w :: w in ws ==> w != Append(Decided(R.AskUser))
    ensures Fine(j, ws, AsksRightly)
  {
    if ws != [] {
      var before, last := ws[..|ws| - 1], ws[|ws| - 1];
      assert ws == before + [last];
      assert forall w :: w in before ==> w in ws;
      assert last in ws && (last.Append? ==> last == Append(last.entry));
      NothingDecided(j, before);
    }
  }

  lemma {:induction false} DiagnosisAsksRightly(t: Task, e: Env)
    requires DiagnosisDecision(t, e).AskUser? ==>
               DiagnosisFinding(t, e).Some? && DiagnosisFinding(t, e).value.Oscillation?
    ensures Fine(t.d.journal, DiagnoseStep(t, e).writes, AsksRightly)
  {
    hide DiagnosisDecision, DiagnosisFinding, DiagnosisCycle, Observe, AfterDecision;
    var j, ws := t.d.journal, DiagnoseStep(t, e).writes;
    ACycle(t, e);
    if DiagnosisDecision(t, e).AskUser? {
      var diagnosed := Append(Diagnosed(e.fingerprint, e.fileState, DiagnosisCycle(t, e).metric));
      var found := Append(LoopDetected(DiagnosisFinding(t, e).value));
      assert ws == [diagnosed, found] + [Append(Decided(R.AskUser))] + DecisionWrites(R.AskUser);
      NothingDecided(j, [diagnosed, found]);
      EntriesFew(diagnosed, found);
      var j2 := j + Entries([diagnosed, found]);
      assert j2[|j2| - 1] == found.entry;
      OneWrite(j2, Decided(R.AskUser), AsksRightly);
      FineConcat(j, [diagnosed, found], [Append(Decided(R.AskUser))], AsksRightly);
      NothingDecided(j + Entries([diagnosed, found] + [Append(Decided(R.AskUser))]), DecisionWrites(R.AskUser));
      FineConcat(j, [diagnosed, found] + [Append(Decided(R.AskUser))], DecisionWrites(R.AskUser), AsksRightly);
    } else {
      NothingDecided(j, ws);
    }
  }

  lemma {:induction false} ActionAsksRightly(events: seq<Event>, a: Action)
    requires Crashes(events) == 0
    ensures Fine(After(events).d.journal, Do(After(events), a).writes, AsksRightly)
  {
    hide VerifyStep, DiagnoseStep, RepairStep, ImplementStep, ImplementPlanStep, PlanningRound, DiagnosisDecision, DiagnosisFinding;
    var t := After(events);
    if a.Drive? && t.d.state.Diagnosing? {
      AsksOnlyAboutOscillation(events, a.env);
      DiagnosisAsksRightly(t, a.env);
    } else {
      if a.Drive? {
        DriveMay(t, a.env);
      } else {
        ClientMay(t, a);
      }
      NothingDecided(t.d.journal, Do(t, a).writes);
    }
  }

  lemma {:induction false} CrashesBefore(events: seq<Event>, n: nat)
    requires n <= |events|
    ensures Crashes(events[..n]) <= Crashes(events)
  {
    if n < |events| {
      CrashesBefore(events[..|events| - 1], n);
      assert events[..|events| - 1][..n] == events[..n];
    } else {
      assert events[..n] == events;
    }
  }

  lemma {:induction false} ObeyedAt(j: Log, rule: Rule, i: nat)
    requires Obeyed(j, rule) && i < |j|
    ensures rule(j[..i], j[i])
  {
    if i < |j| - 1 {
      ObeyedAt(j[..|j| - 1], rule, i);
      assert j[..|j| - 1][..i] == j[..i];
    }
  }

  /** So without a crash every journaled decision to ask the user stands right after an oscillation. */
  lemma {:induction false} QuestionsAreOscillations(events: seq<Event>)
    requires Crashes(events) == 0
    ensures var j := After(events).d.journal;
      forall i :: 0 <= i < |j| && j[i] == Decided(R.AskUser) ==>
        i > 0 && j[i - 1].LoopDetected? && j[i - 1].finding.Oscillation?
  {
    hide Do, After;
    forall n | 0 <= n < |events|
      ensures var t := After(events[..n]); Fine(t.d.journal, Do(t, events[n].action).writes, AsksRightly)
    {
      CrashesBefore(events, n);
      ActionAsksRightly(events[..n], events[n].action);
    }
    ObeyedAlways(events, AsksRightly);
    var j := After(events).d.journal;
    forall i | 0 <= i < |j| && j[i] == Decided(R.AskUser)
      ensures i > 0 && j[i - 1].LoopDetected? && j[i - 1].finding.Oscillation?
    {
      ObeyedAt(j, AsksRightly, i);
    }
  }
}
