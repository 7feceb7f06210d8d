/** Runs from a new task to each of the situations in which the step machine does not do what its
    comments say, and to the last repair attempt that crashes allow. Each is a sequence of events that
    the lemmas follow one step at a time. */
module AgentWitnesses {
  import opened Options
  import opened LoopDetect
  import opened Journal
  import opened Plans
  import opened Agent
  import opened AgentTermination
  import opened AgentFindings
  import opened AgentRounds
  import V = AgentDivergence
  import L = AgentLedger
  import P = AgentPlanLoop

  const AGAIN: Event := Run(Drive(V.SAME))

  // ---------------------------------------------------------------- a stranded task

  const ASKS: Env := V.SAME.(reply := Ask)

  /** The model is not sure about a repair; the user answers. */
  function Consulted(): seq<Event> {
    V.Repeated(6) + [AGAIN] + [Run(Drive(ASKS))] + [Run(Respond)]
  }

  /** The first diagnosis goes on to a repair turn; the failed check is remembered. */
  lemma {:induction false} FirstTurnDue()
    ensures var t := Step(After(V.Repeated(6)), AGAIN);
      && t.d.state.Repairing? && t.d.plan == None && !ToolInterrupted(t.d.journal)
      && FailureKept(t) && t.mem.value.repair == V.Recorded(0)
  {
    hide Step, LastTool, ReplayLedger, V.Repeated, Observe, V.Uneventful;
    FirstDiagnosis();
    V.RunReachesFirst();
    var t := After(V.Repeated(6));
    V.OnceMore(5);
    V.FailedAgain(After(V.Repeated(5)));
    V.SamePlan(After(V.Repeated(5)).d, V.FAILURE);
    V.DiagnosedQuietly(t, 0);
    PlanStays(t, V.SAME);
    assert V.StepsOf(0) == [];
    V.QuietCycle(t.mem.value.detector, 0, []);
    V.DiagnosisEffect(t, 0);
    assert Step(t, AGAIN).mem == DiagnoseStep(t, V.SAME).mem by {
      Drives(t, V.SAME);
    }
  }

  lemma {:induction false} Drives(t: Task, e: Env)
    requires t.d.state.Diagnosing?
    ensures Step(t, Run(Drive(e))).mem == DiagnoseStep(t, e).mem
  {
    hide DiagnoseStep, ApplyAll;
  }

  lemma {:induction false} AfterConsulting()
    ensures Crashes(Consulted()) == 0
    ensures var t := After(Consulted());
      && t.d.state.Implementing? && t.d.plan == None && !ToolInterrupted(t.d.journal)
      && FailureKept(t) && Untroubled(t)
  {
    hide Step, LastTool, V.Repeated, FailureKept, Untroubled;
    var ask := Run(Drive(ASKS));
    FirstTurnDue();
    OneMore(V.Repeated(6), AGAIN);
    AskedInRepair(After(V.Repeated(6) + [AGAIN]));
    OneMore(V.Repeated(6) + [AGAIN], ask);
    Answers(After(V.Repeated(6) + [AGAIN] + [ask]));
    OneMore(V.Repeated(6) + [AGAIN] + [ask], Run(Respond));
    SameMemory(After(V.Repeated(6) + [AGAIN] + [ask]), After(Consulted()));
    V.NoCrashes(6);
    CrashesAppend(V.Repeated(6), AGAIN);
    CrashesAppend(V.Repeated(6) + [AGAIN], ask);
    CrashesAppend(V.Repeated(6) + [AGAIN] + [ask], Run(Respond));
  }

  /** One repair turn was taken, and nothing has escalated. */
  predicate Untroubled(t: Task) {
    && t.mem.Some? && |t.mem.value.repair.attempts| == 1
    && !t.mem.value.repair.escalated && !t.mem.value.repair.switchedRole
  }

  lemma {:induction false} SameMemory(t: Task, t': Task)
    requires t.mem == t'.mem
    ensures FailureKept(t) ==> FailureKept(t')
    ensures Untroubled(t) ==> Untroubled(t')
  {
  }

  lemma {:induction false} CrashesAppend(events: seq<Event>, ev: Event)
    ensures Crashes(events + [ev]) == Crashes(events) + (if ev.Crash? then 1 else 0)
  {
    assert (events + [ev])[..|events|] == events;
  }

  lemma {:induction false} PlanStays(t: Task, e: Env)
    requires t.d.state.Diagnosing?
    ensures Step(t, Run(Drive(e))).d.plan == t.d.plan
  {
    hide DiagnoseStep;
    DiagnoseMay(t, e);
    var ws := DiagnoseStep(t, e).writes;
    forall w | w in ws
      ensures !w.SavePlan?
    {
      assert MayWrite(Diagnosing, w);
    }
    V.SamePlan(t.d, ws);
  }

  lemma {:induction false} AsksInstead(t: Task)
    requires t.d.state.Repairing? && !ToolInterrupted(t.d.journal)
    ensures var eff := RepairStep(t, ASKS);
      && eff.writes == [Append(ModelCall(RepairTurn)), Append(ContextRetrieved), Append(ModelAnswered(RepairTurn)),
                        Append(Attempted(AttemptFor(Take(t), ASKS))), Goto(WaitingForUser)]
      && eff.mem == Some(Take(t).(repair := Take(t).repair.Record(AttemptFor(Take(t), ASKS))))
  {
    hide Take, TakeFed, AttemptFor, LastTool;
  }

  lemma {:induction false} AskedInRepair(t: Task)
    requires t.d.state.Repairing? && !ToolInterrupted(t.d.journal)
    requires FailureKept(t) && t.mem.value.repair == V.Recorded(0)
    ensures var t' := Step(t, Run(Drive(ASKS)));
      && t'.d.state.WaitingForUser? && t'.d.plan == t.d.plan && !ToolInterrupted(t'.d.journal)
      && FailureKept(t') && Untroubled(t')
  {
    hide AttemptFor, LastTool, ApplyAll, Entries, RepairStep;
    var ws := RepairStep(t, ASKS).writes;
    AsksInstead(t);
    assert Step(t, Run(Drive(ASKS))).d == ApplyAll(t.d, ws);
    StateAfter(t.d, ws, |ws|);
    JournalAfter(t.d, ws);
    SameTool(t.d.journal, ws);
    V.SamePlan(t.d, ws);
  }

  lemma {:induction false} Answers(t: Task)
    requires t.d.state.WaitingForUser?
    ensures var t' := Step(t, Run(Respond));
      && t'.d == t.d.(journal := t.d.journal + [UserResponse], state := Implementing, pausedFrom := None)
      && t'.mem == t.mem && LastTool(t'.d.journal) == LastTool(t.d.journal)
  {
    ApplyFew(t.d, Append(UserResponse), Goto(Implementing), Goto(Implementing));
    SameStoredAndTool(t.d.journal, "");
  }

  /** On that run, without a crash, the next tool call asks for a permission; the user gives it; and the
      task is stranded from then on. */
  lemma {:induction false} StrandingIsReached(more: seq<Event>)
    requires forall n :: 0 <= n < |more| ==> !more[n].action.Cancel?
    ensures var events := Consulted() + [Run(Drive(V.SAME.(reply := UseTool, tool := AskRequired)))]
                          + [Run(Resolve(true, Executed))];
      Crashes(events) == 0 && Stranded(Later(After(events), more).d)
  {
    hide Step, LastTool, Consulted, Stranded, Later;
    var ask, approve := Run(Drive(V.SAME.(reply := UseTool, tool := AskRequired))), Run(Resolve(true, Executed));
    AfterConsulting();
    ApprovalAfterVerificationStrands(After(Consulted()), ask.action.env, more);
    OneMore(Consulted(), ask);
    OneMore(Consulted() + [ask], approve);
    CrashesAppend(Consulted(), ask);
    CrashesAppend(Consulted() + [ask], approve);
  }

  /** Six steps lead to the first failure, the seventh diagnoses it, and the repair turn's call asks for a
      permission: the task has failed. */
  lemma {:induction false} RefusedRepairIsReached()
    ensures var events := V.Repeated(6) + [AGAIN] + [Run(Drive(V.SAME.(reply := UseTool, tool := AskRequired)))];
      Crashes(events) == 0 && After(V.Repeated(6) + [AGAIN]).d.state.Repairing? && After(events).d.state.Failed?
  {
    hide Step, LastTool, V.Repeated;
    var e := V.SAME.(reply := UseTool, tool := AskRequired);
    FirstTurnDue();
    OneMore(V.Repeated(6), AGAIN);
    OneMore(V.Repeated(6) + [AGAIN], Run(Drive(e)));
    RepairEditNeedsNoPermission(After(V.Repeated(6) + [AGAIN]), e);
    V.NoCrashes(6);
    CrashesAppend(V.Repeated(6), AGAIN);
    CrashesAppend(V.Repeated(6) + [AGAIN], Run(Drive(e)));
  }

  // ---------------------------------------------------------------- a planned task

  const PLAN: Plan := RawPlan([["step"]], {}, {}, map[])

  /** The model submits a plan of one step, and asks a question. */
  const PLANNED: Env := V.SAME.(modelAuthored := true, submission := Some("plan"), verdict := Some(PLAN), reply := Ask)

  function Planned(): seq<Event> {
    [Run(Drive(PLANNED))] + [Run(Drive(PLANNED))] + [Run(Drive(PLANNED))] + [Run(Drive(PLANNED))]
  }

  lemma {:induction false} AfterPlanning()
    ensures After(Planned()) ==
            Task(Durable([ContextRetrieved, ModelCall(PlanTurn), PlanAnswered(Some("plan")), PlanAccepted],
                         Implementing, None, Some(PLAN), []), None, [])
    ensures Crashes(Planned()) == 0
  {
    hide Step;
    var e := Run(Drive(PLANNED));
    assert Planned()[..3] == [e] + [e] + [e] && Planned()[..3][..2] == [e] + [e] && [e][..0] == [];
    assert ([e] + [e])[..1] == [e];
    var t3 := Task(Durable([ContextRetrieved], Planning, None, None, []), None, []);
    ToPlanning();
    assert After([e]) == Step(After([]), e);
    assert After([e] + [e]) == Step(After([e]), e);
    assert After([e] + [e] + [e]) == Step(After([e] + [e]), e) == t3;
    PlanAccepts(t3);
    assert Crashes([]) == 0;
    CrashesAppend([], e);
    CrashesAppend([e], e);
    CrashesAppend([e] + [e], e);
    CrashesAppend([e] + [e] + [e], e);
    assert [] + [e] == [e];
  }

  lemma {:induction false} ToPlanning()
    ensures var e := Run(Drive(PLANNED));
      Step(Step(Step(NEW_TASK, e), e), e) == Task(Durable([ContextRetrieved], Planning, None, None, []), None, [])
  {
    hide PlanningRound;
    var t0 := NEW_TASK.d;
    ApplyFew(t0, Goto(Understanding), Goto(Discovery), Append(ContextRetrieved));
    ApplyFew(t0.(state := Understanding), Goto(Discovery), Append(ContextRetrieved), Goto(Planning));
    ApplyFew(t0.(state := Discovery), Append(ContextRetrieved), Goto(Planning), Goto(Planning));
  }

  lemma {:induction false} PlanAccepts(t: Task)
    requires t == Task(Durable([ContextRetrieved], Planning, None, None, []), None, [])
    ensures Step(t, Run(Drive(PLANNED))) ==
            Task(Durable([ContextRetrieved, ModelCall(PlanTurn), PlanAnswered(Some("plan")), PlanAccepted],
                         Implementing, None, Some(PLAN), []), None, [])
  {
    hide DriveStep, ApplyAll;
    var ws := [Append(ModelCall(PlanTurn)), Append(PlanAnswered(Some("plan"))), SavePlan(PLAN), Append(PlanAccepted),
               Goto(Implementing)];
    PlanIsSubmitted(t);
    ApplyFew(t.d, ws[0], ws[1], ws[2]);
    assert ws == ws[..3] + ws[3..];
    ApplyConcat(t.d, ws[..3], ws[3..]);
    ApplyFew(ApplyAll(t.d, ws[..3]), ws[3], ws[4], ws[4]);
    assert ws[..3] == [ws[0], ws[1], ws[2]] && ws[3..] == [ws[3], ws[4]];
  }

  lemma {:induction false} PlanIsSubmitted(t: Task)
    requires t == Task(Durable([ContextRetrieved], Planning, None, None, []), None, [])
    ensures DriveStep(t, PLANNED) ==
            Effect([Append(ModelCall(PlanTurn)), Append(PlanAnswered(Some("plan"))), SavePlan(PLAN), Append(PlanAccepted),
                    Goto(Implementing)], None, [])
  {
    assert t.d.journal[..0] == [];
    assert UnprocessedSubmission(t.d.journal) == None && Rejections(t.d.journal) == 0;
  }

  /** The plan's one step is due, with all its turns left. */
  lemma {:induction false} StepIsDue()
    ensures var t := After(Planned());
      FreshTurnDue(t, PLAN, "step") && TurnsSinceStart(t.d.journal, "step") == 0
  {
    AfterPlanning();
    var j := After(Planned()).d.journal;
    assert PLAN.Order() == ["step"] by {
      OneStep();
    }
    assert CompletedSteps(j) == {};
    assert PLAN.GroupFor("step") == ["step"];
    assert j[..3][..2][..1][..0] == [];
    assert j[..3] == [j[0], j[1], j[2]] && j[..2] == [j[0], j[1]] && j[..1] == [j[0]];
    NothingYet();
  }

  lemma {:induction false} OneStep()
    ensures RawPlan([["step"]], {}, {}, map[]).Order() == ["step"]
  {
  }

  lemma {:induction false} NothingYet()
    ensures var j := [ContextRetrieved, ModelCall(PlanTurn), PlanAnswered(Some("plan")), PlanAccepted];
      UnprocessedAction(j, "step") == None && LastTool(j) == None && TurnsSinceStart(j, "step") == 0
  {
    var j := [ContextRetrieved, ModelCall(PlanTurn), PlanAnswered(Some("plan")), PlanAccepted];
    var j3, j2, j1 := j[..3], j[..2], j[..1];
    assert j3[..2] == j2 && j2[..1] == j1 && j1[..0] == [];
    assert UnprocessedAction(j1, "step") == None && LastTool(j1) == None && TurnsSinceStart(j1, "step") == 0;
    assert UnprocessedAction(j2, "step") == None && LastTool(j2) == None && TurnsSinceStart(j2, "step") == 0;
    assert UnprocessedAction(j3, "step") == None && LastTool(j3) == None && TurnsSinceStart(j3, "step") == 0;
  }

  lemma {:induction false} TurnPlanned(t: Task, e: Env, p: Plan, s: StepId)
    requires FreshTurnDue(t, p, s) && e.stillValid && !e.reply.Unavailable? && !e.reply.Malformed?
    ensures var action := ActionOf(e.reply); var ws := Do(t, Drive(e)).writes;
      && ws == UpToAnswer(t.d.journal, p, s, action) + ActOn(Implementing, s, action, e)
      && Step(t, Run(Drive(e))) == Task(ApplyAll(t.d, ws), t.mem, t.fed)
  {
    hide CompletedSteps, TurnsSinceStart, OpenStep, UnprocessedAction, ActOn, LastTool, ApplyAll;
    assert Do(t, Drive(e)).writes == SoloStep(t, e, p, s);
  }

  lemma {:induction false} NoCheckpointDue(j: Log, p: Plan, s: StepId)
    requires s !in p.checkpoints && IsStarted(j, s)
    ensures OpenStep(j, p, s) == []
  {
  }

  lemma {:induction false} AnswerNoGoto(j: Log, p: Plan, s: StepId, action: StepAction)
    ensures P.NoGoto(UpToAnswer(j, p, s, action)) && AllMay(Implementing, UpToAnswer(j, p, s, action))
  {
    hide OpenStep;
    P.OpenNoGoto(j, p, s);
    OpenStepMay(j, p, s);
  }

  /** A turn that asks a question leaves it stored. */
  lemma {:induction false} QuestionTurn(t: Task, e: Env, p: Plan, s: StepId)
    requires FreshTurnDue(t, p, s) && e.stillValid && e.reply.Ask? && s !in p.checkpoints
    ensures var t' := Step(t, Run(Drive(e)));
      && t'.d.state.WaitingForUser? && QuestionStored(t'.d, p, s)
      && TurnsSinceStart(t'.d.journal, s) == TurnsSinceStart(t.d.journal, s) + 1
  {
    hide Step, CompletedSteps, TurnsSinceStart, OpenStep, UnprocessedAction, LastTool, ApplyAll, UpToAnswer, Entries;
    var j, pre := t.d.journal, UpToAnswer(t.d.journal, p, s, StepAsk);
    TurnPlanned(t, e, p, s);
    var ws := pre + [Goto(WaitingForUser)];
    assert ws[|ws| - 1] == Goto(WaitingForUser);
    StateAfter(t.d, ws, |ws|);
    JournalAfter(t.d, ws);
    EntriesConcat(pre, [Goto(WaitingForUser)]);
    EntriesFew(Goto(WaitingForUser), Goto(WaitingForUser));
    AnswerIsStored(j, p, s, StepAsk);
    AnswerNoGoto(j, p, s, StepAsk);
    P.PlanKept(t.d, ws);
    NoCheckpointDue(j + Entries(pre), p, s);
    assert j + Entries(ws) == j + Entries(pre);
    assert Incomplete(p, j + Entries(ws), s) == Incomplete(p, j, s);
  }

  lemma {:induction false} WorkJournaled(j: Log, p: Plan, s: StepId)
    requires !ToolInterrupted(j)
    ensures var j' := j + Entries(UpToAnswer(j, p, s, StepTool) + P.RAN);
      && UnprocessedAction(j', s) == None && !ToolInterrupted(j')
      && TurnsSinceStart(j', s) == TurnsSinceStart(j, s) + 1 && CompletedSteps(j') == CompletedSteps(j)
  {
    hide CompletedSteps, TurnsSinceStart, OpenStep, UnprocessedAction, LastTool, UpToAnswer, Entries, IsStarted;
    var pre := UpToAnswer(j, p, s, StepTool);
    var j1 := j + Entries(pre);
    AnswerIsStored(j, p, s, StepTool);
    P.RanTool(j1, s);
    P.NothingCompleted(p, j1, P.RAN);
    EntriesConcat(pre, P.RAN);
    assert j + Entries(pre + P.RAN) == j1 + Entries(P.RAN);
  }

  /** A turn whose tool call runs leaves the step due with a turn fewer. */
  lemma {:induction false} WorkingTurn(t: Task, e: Env, p: Plan, s: StepId)
    requires FreshTurnDue(t, p, s) && e.stillValid && e.reply.UseTool? && e.tool.Executed? && !e.outOfScope
    requires TurnsSinceStart(t.d.journal, s) + 1 < MAX_STEP_TURNS
    ensures var t' := Step(t, Run(Drive(e)));
      FreshTurnDue(t', p, s) && TurnsSinceStart(t'.d.journal, s) == TurnsSinceStart(t.d.journal, s) + 1
  {
    hide Step, CompletedSteps, TurnsSinceStart, OpenStep, UnprocessedAction, LastTool, ApplyAll, UpToAnswer, Entries, ActOn, Do;
    var j, pre := t.d.journal, UpToAnswer(t.d.journal, p, s, StepTool);
    TurnPlanned(t, e, p, s);
    var ws := Do(t, Drive(e)).writes;
    assert ws == pre + P.RAN by {
      RunsInScope(s, e);
    }
    AnswerNoGoto(j, p, s, StepTool);
    P.GoesOn(t.d, ws);
    P.PlanKept(t.d, ws);
    JournalAfter(t.d, ws);
    WorkJournaled(j, p, s);
    assert Incomplete(p, j + Entries(ws), s) == Incomplete(p, j, s);
  }

  lemma {:induction false} RunsInScope(s: StepId, e: Env)
    requires e.tool.Executed? && !e.outOfScope
    ensures ActOn(Implementing, s, StepTool, e) == P.RAN
  {
    assert ActOn(Implementing, s, StepTool, e) == [] + P.RAN;
  }

  /** Without a crash the question of a plan step is stored with turns left, so however often the user
      answers it, it is asked again. */
  lemma {:induction false} QuestionIsReached(n: nat)
    ensures var t := After(Planned() + [Run(Drive(PLANNED))]); var t' := Answered(t, PLANNED, n);
      && Crashes(Planned() + [Run(Drive(PLANNED))]) == 0
      && t.d.state.WaitingForUser? && QuestionStored(t.d, PLAN, "step")
      && t'.d.state.WaitingForUser? && t'.d.journal == t.d.journal + seq(n, _ => UserResponse)
  {
    hide Step, After, QuestionStored, FreshTurnDue, TurnsSinceStart;
    StepIsDue();
    AfterPlanning();
    OneMore(Planned(), Run(Drive(PLANNED)));
    CrashesAppend(Planned(), Run(Drive(PLANNED)));
    QuestionTurn(After(Planned()), PLANNED, PLAN, "step");
    NoAnswerGetsThrough(After(Planned() + [Run(Drive(PLANNED))]), PLAN, "step", PLANNED, n);
  }

  // ---------------------------------------------------------------- a stored action that is dropped

  const WORKS: Env := PLANNED.(reply := UseTool)

  function TwoTurns(): seq<Event> {
    Planned() + [Run(Drive(WORKS))] + [Run(Drive(WORKS))]
  }

  /** Two turns edit; the third decides on another edit, and the process dies. The restart completes the
      step without making it. */
  lemma {:induction false} DroppedActionIsReached()
    ensures var t := After(TwoTurns());
      var pre := UpToAnswer(t.d.journal, PLAN, "step", StepTool);
      var t' := After(TwoTurns() + [Crash(Drive(WORKS), |pre|)]);
      && FreshTurnDue(t, PLAN, "step") && TurnsSinceStart(t.d.journal, "step") == 2
      && Do(t, Drive(WORKS)).writes == pre + P.RAN
      && Do(t', Drive(WORKS)).writes == OpenStep(t'.d.journal, PLAN, "step") + [Append(StepCompleted("step"))]
  {
    hide Step, After, FreshTurnDue, TurnsSinceStart, Do, UpToAnswer, OpenStep;
    StepIsDue();
    var t0, work := After(Planned()), Run(Drive(WORKS));
    WorkingTurn(t0, WORKS, PLAN, "step");
    OneMore(Planned(), work);
    WorkingTurn(Step(t0, work), WORKS, PLAN, "step");
    OneMore(Planned() + [work], work);
    var t := After(TwoTurns());
    TurnPlanned(t, WORKS, PLAN, "step");
    RunsInScope("step", WORKS);
    StoredActionReplayed(t, PLAN, "step", WORKS, WORKS);
    OneMore(TwoTurns(), Crash(Drive(WORKS), |UpToAnswer(t.d.journal, PLAN, "step", StepTool)|));
  }

  // ---------------------------------------------------------------- an edit nobody verifies

  const EDITS: Env := V.SAME.(reply := UseTool)

  /** Without a plan, an edit in Implementing leaves the memory alone. */
  lemma {:induction false} EditsUnplanned(t: Task)
    requires t.d.state.Implementing? && t.d.plan == None && !ToolInterrupted(t.d.journal)
    ensures var t' := Step(t, Run(Drive(EDITS)));
      && t'.d.state.Implementing? && t'.d.plan == None && !ToolInterrupted(t'.d.journal)
      && t'.d.world == t.d.world + [Edited] && t'.mem == t.mem
  {
    hide LastTool, ApplyAll, Entries;
    var asked := [Append(ModelCall(ImplementTurn)), Append(ContextRetrieved), Append(ModelAnswered(ImplementTurn))];
    var ws := asked + P.RAN;
    assert Do(t, Drive(EDITS)).writes == ws;
    StateAfter(t.d, ws, 0);
    JournalAfter(t.d, ws);
    V.SamePlan(t.d, ws);
    ToolIs(t.d.journal, asked + P.RAN[..2], ToolResult, []);
    assert ws == asked + P.RAN[..2] + [Append(ToolResult)] + [];
    ApplyConcat(t.d, asked, P.RAN);
    ApplyFew(t.d, asked[0], asked[1], asked[2]);
    ApplyFew(ApplyAll(t.d, asked), P.RAN[0], P.RAN[1], P.RAN[2]);
  }

  lemma {:induction false} FinishesUnplanned(t: Task)
    requires t.d.state.Implementing? && t.d.plan == None && !ToolInterrupted(t.d.journal)
    ensures var t' := Step(t, AGAIN); t'.d.state.Verifying? && t'.d.world == t.d.world && t'.mem == t.mem
  {
    hide LastTool, ApplyAll, Entries;
    var asked := [Append(ModelCall(ImplementTurn)), Append(ContextRetrieved), Append(ModelAnswered(ImplementTurn))];
    var ws := asked + [Goto(Verifying)];
    assert Do(t, Drive(V.SAME)).writes == ws;
    StateAfter(t.d, ws, |ws|);
    ApplyConcat(t.d, asked, [Goto(Verifying)]);
    ApplyFew(t.d, asked[0], asked[1], asked[2]);
    ApplyFew(ApplyAll(t.d, asked), Goto(Verifying), Goto(Verifying), Goto(Verifying));
  }

  /** The user has answered; the model edits and says it is done; the driver looks at the verification
      plan. */
  function Unverified(): seq<Event> {
    [Run(Drive(EDITS))] + [AGAIN] + [AGAIN]
  }

  /** Twelve events from a new task, without a crash and without an escalation: the first repair turn asks,
      the user answers, the workspace is edited, and the task comes back to diagnosing the old failure
      without having run a check. */
  lemma {:induction false} UnverifiedEditIsReached()
    ensures |Consulted() + Unverified()| == 12 && Crashes(Consulted() + Unverified()) == 0
    ensures var t, t' := After(Consulted()), After(Consulted() + Unverified());
      && FailureKept(t) && Untroubled(t) && Untroubled(t')
      && t'.d.state.Diagnosing? && t'.d.world == t.d.world + [Edited]
      && ChecksRun(t'.d.journal) == ChecksRun(t.d.journal)
  {
    hide Step, LastTool, FailureKept, Untroubled, ChecksRun, Forgets;
    var edit, e0 := Run(Drive(EDITS)), Consulted();
    AfterConsulting();
    var t := After(e0);
    EditsUnplanned(t);
    OneMore(e0, edit);
    FinishesUnplanned(Step(t, edit));
    OneMore(e0 + [edit], AGAIN);
    var t2 := After(e0 + [edit] + [AGAIN]);
    SameMemory(t, t2);
    ChecksUnlessKept(e0 + [edit] + [AGAIN], V.SAME);
    OneMore(e0 + [edit] + [AGAIN], AGAIN);
    assert e0 + Unverified() == e0 + [edit] + [AGAIN] + [AGAIN];
    SameMemory(t2, After(e0 + Unverified()));
    CrashesAppend(e0, edit);
    CrashesAppend(e0 + [edit], AGAIN);
    CrashesAppend(e0 + [edit] + [AGAIN], AGAIN);
    NothingForgotten(t, edit);
    KeptUntilForgotten(e0, Unverified());
    LaterIsAfter(e0, Unverified());
  }

  lemma {:induction false} NothingForgotten(t: Task, edit: Event)
    requires edit == Run(Drive(EDITS)) && t.d.state.Implementing?
    requires Step(t, edit).d.state.Implementing? && Step(Step(t, edit), AGAIN).d.state.Verifying?
    ensures NeverForgotten(t, Unverified())
  {
    hide Step;
    var w := Unverified();
    assert w[..0] == [] && w[..1] == [edit] && w[..2] == [edit] + [AGAIN];
    assert [edit][..0] == [] && ([edit] + [AGAIN])[..1] == [edit];
    assert Later(t, []) == t && Later(t, [edit]) == Step(t, edit);
    assert Later(t, [edit] + [AGAIN]) == Step(Step(t, edit), AGAIN);
  }

  // ---------------------------------------------------------------- the last attempt crashes allow

  /** Three failures, each with a repair turn, and a fourth. */
  function FourFailures(): seq<Event> {
    V.Repeated(6)
    + [Run(Drive(Failing("one", {})))] + [AGAIN] + [AGAIN]
    + [Run(Drive(Failing("two", {})))] + [AGAIN] + [AGAIN]
    + [Run(Drive(Failing("three", {"a"})))] + [AGAIN] + [AGAIN]
    + [Run(Drive(Failing("four", {})))]
  }

  const ONE: Story := Noticed(BEGINNING, "one", {}, 1, 1).(attempts := 1)
  const TWO: Story := Noticed(ONE, "two", {}, 1, 1).(attempts := 2)
  const THREE: Story := Noticed(TWO, "three", {"a"}, 1, 1).(attempts := 3)

  lemma {:induction false} NoStall()
    ensures ONE.run == 0 && TWO.run == 1 && THREE.run == 0 && Noticed(THREE, "four", {}, 1, 1).run == 1
    ensures ONE.seen == {"one"} && TWO.seen == {"one", "two"} && THREE.seen == {"one", "two", "three"}
  {
    TwoFiles();
    var none: set<Path> := {};
    assert none + none == none && none + {"a"} == {"a"} && {"a"} + none == {"a"};
    assert ONE.live == [Metric(1, 1, none)];
    assert TWO.live == [Metric(1, 1, none), Metric(1, 1, none)];
  }

  lemma {:induction false} AfterFourFailures()
    ensures var t := After(FourFailures());
      && t.d.state.Repairing? && !ToolInterrupted(t.d.journal)
      && L.Attempts(t.d.journal) == 3 && Crashes(FourFailures()) == 0
  {
    hide Step, Tells, StalledAfter, V.Repeated, L.Attempts, Crashes;
    FirstDiagnosis();
    NoStall();
    DifferentFailures();
    var e0 := V.Repeated(6);
    V.NoCrashes(6);
    OneRound(After(e0), BEGINNING, "one", {});
    var e1 := NextRound(e0, "one", {});
    OneRound(After(e1), ONE, "two", {});
    var e2 := NextRound(e1, "two", {});
    OneRound(After(e2), TWO, "three", {"a"});
    var e3 := NextRound(e2, "three", {"a"});
    var last := Run(Drive(Failing("four", {})));
    DiagnosedNew(After(e3), THREE, "four", {});
    OneMore(e3, last);
    CrashesAppend(e3, last);
    L.LedgerSurvivesCrashes(FourFailures());
    L.LedgerCounts(After(FourFailures()).d.journal);
    ToldAttempts(After(FourFailures()), Noticed(THREE, "four", {}, 1, 1));
  }

  lemma {:induction false} ToldAttempts(t: Task, s: Story)
    requires Tells(t, s)
    ensures |Take(t).repair.attempts| == s.attempts && !ToolInterrupted(t.d.journal)
  {
  }

  lemma {:induction false} NextRound(events: seq<Event>, fp: Fingerprint, changed: set<Path>) returns (more: seq<Event>)
    ensures more == events + [Run(Drive(Failing(fp, changed)))] + [AGAIN] + [AGAIN]
    ensures After(more) == Step(Step(Step(After(events), Run(Drive(Failing(fp, changed)))), AGAIN), AGAIN)
    ensures Crashes(more) == Crashes(events)
  {
    hide Step;
    var e := Run(Drive(Failing(fp, changed)));
    more := events + [e] + [AGAIN] + [AGAIN];
    OneMore(events, e);
    OneMore(events + [e], AGAIN);
    OneMore(events + [e] + [AGAIN], AGAIN);
    CrashesAppend(events, e);
    CrashesAppend(events + [e], AGAIN);
    CrashesAppend(events + [e] + [AGAIN], AGAIN);
  }

  /** The fourth repair turn, lost `c` times just after its attempt was journaled. */
  function Losing(c: nat): seq<Event> {
    if c == 0 then FourFailures()
    else Losing(c - 1) + [Crash(Drive(V.SAME), |UpToAttempt(After(Losing(c - 1)), V.SAME)|)]
  }

  lemma {:induction false} AfterLosing(c: nat)
    ensures var t := After(Losing(c));
      && t.d.state.Repairing? && !ToolInterrupted(t.d.journal)
      && L.Attempts(t.d.journal) == 3 + c && Crashes(Losing(c)) == c
  {
    hide Step, FourFailures, L.Attempts, UpToAttempt, Crashes;
    if c == 0 {
      AfterFourFailures();
    } else {
      var before := Losing(c - 1);
      var ev := Crash(Drive(V.SAME), |UpToAttempt(After(before), V.SAME)|);
      AfterLosing(c - 1);
      CrashAfterAttempt(After(before), V.SAME);
      OneMore(before, ev);
      CrashesAppend(before, ev);
    }
  }

  /** The bound on repair attempts is tight: for every number of crashes there is a run with that many
      crashes and four attempts more. */
  lemma {:induction false} BudgetIsReached(c: nat)
    ensures var events := Losing(c) + [AGAIN];
      Crashes(events) == c && L.Attempts(After(events).d.journal) == MAX_REPAIR_ATTEMPTS + c
  {
    hide Step, Losing, L.Attempts, Crashes;
    AfterLosing(c);
    AttemptCounted(After(Losing(c)), V.SAME);
    OneMore(Losing(c), AGAIN);
    CrashesAppend(Losing(c), AGAIN);
  }
}
