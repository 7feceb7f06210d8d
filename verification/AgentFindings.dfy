/** Where the step machine does not do what its comments say, and exactly when it does. */
module AgentFindings {
  import opened Options
  import opened LoopDetect
  import opened Journal
  import opened Plans
  import opened Agent
  import opened AgentTermination
  import opened AgentCompletion
  import P = AgentPlanSteps
  import L = AgentPlanLoop
  import A = AgentLedger

  /** The task after some more events. */
  function Later(t: Task, events: seq<Event>): Task {
    if events == [] then t else Step(Later(t, events[..|events| - 1]), events[|events| - 1])
  }

  // ---------------------------------------------------------------- permission for a repair edit

  /** A repair turn that calls a tool fails the task unless the tool just runs: Repairing may not wait
      for a permission, so a call that needs one ends the task instead of asking the user. */
  lemma {:induction false} RepairEditNeedsNoPermission(t: Task, e: Env)
    requires t.d.state.Repairing? && !ToolInterrupted(t.d.journal) && e.reply.UseTool?
    ensures var s := Step(t, Run(Drive(e))).d.state;
      (s.Verifying? <==> e.tool.Executed?) && (s.Failed? <==> !e.tool.Executed?)
  {
    hide Take, AttemptFor, RepairWrites, LastTool, RepairMemory, ApplyAll;
    var ws := RepairWrites(Take(t), e);
    assert Step(t, Run(Drive(e))).d == ApplyAll(t.d, ws);
    ToolTurnWrites(Take(t), e);
    StateAfter(t.d, ws, if e.tool.Denied? then 6 else |ws|);
  }

  lemma {:induction false} ToolTurnWrites(vs: VerifyState, e: Env)
    requires e.reply.UseTool?
    ensures var ws := RepairWrites(vs, e);
      if e.tool.Denied? then |ws| == 7 && ws[5] == Goto(Failed) && !ws[6].Goto?
      else ws != [] && ws[|ws| - 1] == if e.tool.Executed? then Goto(Verifying) else Goto(Failed)
  {
    hide AttemptFor;
    if e.tool.Denied? {
      assert RepairOpening(e)[5] == Goto(Failed) && |RepairOpening(e)| == 6;
    }
  }

  // ---------------------------------------------------------------- permission after a verification

  /** An approved call runs; the task goes on if and only if this process holds no verify state for
      it. Otherwise the task is sent back to Verifying, which the transition table does not allow from
      here, and it stays where it is with nothing left to approve. */
  lemma {:induction false} ApprovalResumes(t: Task)
    requires t.d.state.WaitingForPermission? && PermissionPending(t.d.journal)
    ensures var t' := Step(t, Run(Resolve(true, Executed)));
      && t'.d.world == t.d.world + [Edited]
      && t'.d.journal == t.d.journal + [ToolResult]
      && (t.mem.None? <==> t'.d.state.Implementing?)
      && (t.mem.Some? <==> t'.d.state.WaitingForPermission?)
      && !PermissionPending(t'.d.journal)
  {
    var ws := Do(t, Resolve(true, Executed)).writes;
    ApplyFew(t.d, World(Edited), Append(ToolResult), Goto(Implementing));
    if t.mem.None? {
      assert ws == [World(Edited), Append(ToolResult), Goto(Implementing)];
    } else {
      assert ws == [World(Edited), Append(ToolResult)];
    }
    assert (t.d.journal + [ToolResult])[..|t.d.journal|] == t.d.journal;
  }

  /** At rest waiting for a permission nobody can give any more. */
  predicate Stranded(d: Durable) {
    && !PermissionPending(d.journal)
    && (d.state.WaitingForPermission? || (d.state.Paused? && d.pausedFrom == Some(WaitingForPermission)))
  }

  lemma {:induction false} StrandedStep(t: Task, ev: Event)
    requires Stranded(t.d) && !ev.action.Cancel?
    ensures Stranded(Step(t, ev).d)
  {
    var ws := Do(t, ev.action).writes;
    var made := Made(t, ev);
    assert |ws| <= 1 && (ws != [] ==> ws[0].Goto?);
    if made == [] {
      assert Step(t, ev).d == t.d;
    } else {
      assert made == [ws[0]];
      assert ApplyAll(t.d, []) == t.d;
    }
  }

  /** Nothing but a cancel ever moves a stranded task again: not an approval, not a denial, not a
      pause and resume, not a crash and restart. */
  lemma {:induction false} StrandedForever(t: Task, events: seq<Event>)
    requires Stranded(t.d) && forall n :: 0 <= n < |events| ==> !events[n].action.Cancel?
    ensures Stranded(Later(t, events).d)
  {
    if events != [] {
      StrandedForever(t, events[..|events| - 1]);
      StrandedStep(Later(t, events[..|events| - 1]), events[|events| - 1]);
    }
  }

  /** The way there: a task implementing again after a verification in the same process asks for a
      permission and is given it. */
  lemma {:induction false} ApprovalAfterVerificationStrands(t: Task, e: Env, events: seq<Event>)
    requires t.d.state.Implementing? && t.d.plan == None && t.mem.Some? && !ToolInterrupted(t.d.journal)
    requires e.reply.UseTool? && e.tool.AskRequired?
    requires forall n :: 0 <= n < |events| ==> !events[n].action.Cancel?
    ensures var t' := Step(Step(t, Run(Drive(e))), Run(Resolve(true, Executed)));
      Stranded(Later(t', events).d)
  {
    var ws := ImplementStep(t, e).writes;
    var asked := Step(t, Run(Drive(e)));
    assert asked.d == ApplyAll(t.d, ws);
    assert ws[|ws| - 1] == Goto(WaitingForPermission);
    StateAfter(t.d, ws, |ws|);
    JournalAfter(t.d, ws);
    ApprovalResumes(asked);
    StrandedForever(Step(asked, Run(Resolve(true, Executed))), events);
  }

  // ---------------------------------------------------------------- a question asked inside a plan step

  /** Step `s` is the next one, on its own, opened, and its latest turn was a question. */
  predicate QuestionStored(d: Durable, p: Plan, s: StepId) {
    && d.plan == Some(p)
    && p.NextIncomplete(CompletedSteps(d.journal)) == Some(s)
    && |Incomplete(p, d.journal, s)| <= 1
    && OpenStep(d.journal, p, s) == []
    && UnprocessedAction(d.journal, s) == Some(StepAsk)
    && !ToolInterrupted(d.journal)
  }

  /** An answer changes none of that: it is not a turn, and it does not process the question. */
  lemma {:induction false} AnswerProcessesNothing(d: Durable, p: Plan, s: StepId)
    requires QuestionStored(d, p, s)
    ensures QuestionStored(d.(journal := d.journal + [UserResponse], state := Implementing, pausedFrom := None), p, s)
    ensures QuestionStored(d.(journal := d.journal + [UserResponse], state := WaitingForUser, pausedFrom := None), p, s)
    ensures TurnsSinceStart(d.journal + [UserResponse], s) == TurnsSinceStart(d.journal, s)
  {
    hide CompletedSteps, IsStarted, TurnsSinceStart, LastTool, UnprocessedAction;
    var j, j' := d.journal, d.journal + [UserResponse];
    P.NeutralKeeps(j, [Append(UserResponse)], s);
    assert Entries([Append(UserResponse)]) == [UserResponse];
    L.CompletedGrow(j, [UserResponse]);
    SameStoredAndTool(j, s);
    SameCheckpoint(j, s);
  }

  lemma {:induction false} SameCheckpoint(j: Log, s: StepId)
    ensures HasCheckpoint(j, s) ==> HasCheckpoint(j + [UserResponse], s)
  {
    if HasCheckpoint(j, s) {
      var i :| 0 <= i < |j| && j[i] == Checkpoint(s);
      assert (j + [UserResponse])[i] == Checkpoint(s);
    }
  }

  lemma {:induction false} SameStoredAndTool(j: Log, s: StepId)
    ensures UnprocessedAction(j + [UserResponse], s) == UnprocessedAction(j, s)
    ensures LastTool(j + [UserResponse]) == LastTool(j)
  {
    assert (j + [UserResponse])[..|j|] == j;
  }

  /** Answering a stored question: the driver finds the question again and asks it again, without
      calling the model - unless the step's turns are used up, and then it completes the step. */
  lemma {:induction false} AnswerIsAskedAgain(t: Task, p: Plan, s: StepId, e: Env)
    requires t.d.state.WaitingForUser? && QuestionStored(t.d, p, s) && e.stillValid
    ensures var t' := Step(Step(t, Run(Respond)), Run(Drive(e)));
      if TurnsSinceStart(t.d.journal, s) < MAX_STEP_TURNS
      then t'.d.state.WaitingForUser? && QuestionStored(t'.d, p, s) && t'.d.journal == t.d.journal + [UserResponse]
           && TurnsSinceStart(t'.d.journal, s) == TurnsSinceStart(t.d.journal, s)
      else t'.d.state.Implementing? && t'.d.journal == t.d.journal + [UserResponse, StepCompleted(s)]
  {
    hide ApplyAll, CompletedSteps, TurnsSinceStart, OpenStep, UnprocessedAction, Incomplete, LastTool;
    var t1 := Step(t, Run(Respond));
    ApplyFew(t.d, Append(UserResponse), Goto(Implementing), Goto(Implementing));
    assert t1.d == t.d.(journal := t.d.journal + [UserResponse], state := Implementing, pausedFrom := None);
    AnswerProcessesNothing(t.d, p, s);
    var ws := SoloStep(t1, e, p, s);
    assert Do(t1, Drive(e)).writes == ws;
    if TurnsSinceStart(t.d.journal, s) < MAX_STEP_TURNS {
      assert ws == [Goto(WaitingForUser)];
      ApplyFew(t1.d, ws[0], ws[0], ws[0]);
    } else {
      assert ws == [Append(StepCompleted(s))];
      ApplyFew(t1.d, ws[0], ws[0], ws[0]);
    }
  }

  /** The answer-and-go-on cycle, `n` times. */
  function Answered(t: Task, e: Env, n: nat): Task {
    if n == 0 then t else Step(Step(Answered(t, e, n - 1), Run(Respond)), Run(Drive(e)))
  }

  /** So no number of answers gets a step with a turn left past its question, and none of them ever
      reaches the model: the journal grows by the answers and by nothing else. */
  lemma {:induction false} NoAnswerGetsThrough(t: Task, p: Plan, s: StepId, e: Env, n: nat)
    requires t.d.state.WaitingForUser? && QuestionStored(t.d, p, s) && e.stillValid
    requires TurnsSinceStart(t.d.journal, s) < MAX_STEP_TURNS
    ensures var t' := Answered(t, e, n);
      && t'.d.state.WaitingForUser? && QuestionStored(t'.d, p, s)
      && t'.d.journal == t.d.journal + seq(n, _ => UserResponse)
      && TurnsSinceStart(t'.d.journal, s) == TurnsSinceStart(t.d.journal, s)
  {
    hide QuestionStored, TurnsSinceStart, Step;
    if n > 0 {
      NoAnswerGetsThrough(t, p, s, e, n - 1);
      AnswerIsAskedAgain(Answered(t, e, n - 1), p, s, e);
      assert seq(n, _ => UserResponse) == seq(n - 1, _ => UserResponse) + [UserResponse];
    }
  }

  // ---------------------------------------------------------------- a crash after a step's answer

  /** Step `s` is next, on its own, with nothing stored and nothing interrupted. */
  predicate FreshTurnDue(t: Task, p: Plan, s: StepId) {
    && t.d.state.Implementing? && t.d.plan == Some(p)
    && p.NextIncomplete(CompletedSteps(t.d.journal)) == Some(s)
    && |Incomplete(p, t.d.journal, s)| <= 1
    && UnprocessedAction(t.d.journal, s) == None
    && !ToolInterrupted(t.d.journal)
    && TurnsSinceStart(t.d.journal, s) < MAX_STEP_TURNS
  }

  /** The writes of a fresh turn up to its stored answer. */
  function UpToAnswer(j: Log, p: Plan, s: StepId, action: StepAction): seq<Write> {
    OpenStep(j, p, s) + [Append(ModelCall(StepTurn(s))), Append(StepAnswered(s, action))]
  }

  lemma {:induction false} TurnStored(j: Log, s: StepId, action: StepAction)
    requires IsStarted(j, s) && !ToolInterrupted(j)
    ensures var ws := [Append(ModelCall(StepTurn(s))), Append(StepAnswered(s, action))]; var j' := j + Entries(ws);
      UnprocessedAction(j', s) == Some(action) && !ToolInterrupted(j') && IsStarted(j', s)
  {
    hide IsStarted, LastTool;
    var ws := [Append(ModelCall(StepTurn(s))), Append(StepAnswered(s, action))];
    assert Entries(ws) == Entries(ws[..1]) + [StepAnswered(s, action)];
    var j' := j + Entries(ws);
    assert j'[|j'| - 1] == StepAnswered(s, action);
    SameTool(j, ws);
    assert Entries(ws[..1]) == [ModelCall(StepTurn(s))];
    P.KnownBefore(j + [ModelCall(StepTurn(s))], s);
    P.KnownBefore(j', s);
    assert (j + [ModelCall(StepTurn(s))])[..|j|] == j;
    assert j'[..|j'| - 1] == j + [ModelCall(StepTurn(s))];
  }

  lemma {:induction false} AnswerIsStored(j: Log, p: Plan, s: StepId, action: StepAction)
    requires !ToolInterrupted(j)
    ensures var ws := UpToAnswer(j, p, s, action); var j' := j + Entries(ws);
      && UnprocessedAction(j', s) == Some(action)
      && TurnsSinceStart(j', s) == TurnsSinceStart(j, s) + 1
      && CompletedSteps(j') == CompletedSteps(j)
      && !ToolInterrupted(j')
      && IsStarted(j', s)
  {
    hide IsStarted, CompletedSteps, OpenStep, UnprocessedAction, LastTool, TurnsSinceStart;
    var open := OpenStep(j, p, s);
    var turn := [Append(ModelCall(StepTurn(s))), Append(StepAnswered(s, action))];
    L.OpenTurns(j, p, s);
    OpenNoTool(j, p, s);
    L.CallTurn(j + Entries(open), s, action);
    TurnStored(j + Entries(open), s, action);
    EntriesConcat(open, turn);
    assert j + Entries(open + turn) == (j + Entries(open)) + Entries(turn);
    L.NothingCompleted(p, j, open + turn);
  }

  lemma {:induction false} OpenNoTool(j: Log, p: Plan, s: StepId)
    ensures LastTool(j + Entries(OpenStep(j, p, s))) == LastTool(j)
  {
    hide IsStarted, HasCheckpoint, LastTool;
    SameTool(j, OpenStep(j, p, s));
  }

  /** A crash between a step's stored answer and acting on it. The restart acts on the stored answer
      instead of calling the model if and only if that answer did not use the step's last turn: after
      the third turn the limit is checked first, the step is completed, and the stored action is never
      taken. */
  lemma {:induction false} StoredActionReplayed(t: Task, p: Plan, s: StepId, e: Env, e': Env)
    requires FreshTurnDue(t, p, s) && !e.reply.Unavailable? && !e.reply.Malformed? && e.stillValid && e'.stillValid
    ensures var action := ActionOf(e.reply);
      var made := |UpToAnswer(t.d.journal, p, s, action)|;
      var t' := Step(t, Crash(Drive(e), made));
      var open := OpenStep(t'.d.journal, p, s);
      Do(t', Drive(e')).writes ==
        if TurnsSinceStart(t.d.journal, s) + 1 < MAX_STEP_TURNS
        then open + ActOn(Implementing, s, action, e')
        else open + [Append(StepCompleted(s))]
  {
    hide CompletedSteps, TurnsSinceStart, OpenStep, UnprocessedAction, ActOn, LastTool, IsStarted;
    var j, action := t.d.journal, ActionOf(e.reply);
    var pre := UpToAnswer(j, p, s, action);
    var ws := Do(t, Drive(e)).writes;
    assert ws == SoloStep(t, e, p, s);
    assert ws == pre + ActOn(Implementing, s, action, e);
    assert ws[..|pre|] == pre;
    var t' := Step(t, Crash(Drive(e), |pre|));
    assert t'.d == ApplyAll(t.d, pre);
    JournalAfter(t.d, pre);
    AnswerIsStored(j, p, s, action);
    OpenStays(t.d, p, s, action);
    assert Incomplete(p, t'.d.journal, s) == Incomplete(p, j, s);
    assert Do(t', Drive(e')).writes == SoloStep(t', e', p, s);
  }

  lemma {:induction false} OpenStays(d: Durable, p: Plan, s: StepId, action: StepAction)
    ensures var d' := ApplyAll(d, UpToAnswer(d.journal, p, s, action)); d'.state == d.state && d'.plan == d.plan
  {
    hide HasCheckpoint, IsStarted;
    var ws := UpToAnswer(d.journal, p, s, action);
    L.OpenNoGoto(d.journal, p, s);
    L.GoesOn(d, ws);
    forall w | w in ws
      ensures MayWrite(Implementing, w)
    {
      OpenStepMay(d.journal, p, s);
    }
    L.PlanKept(d, ws);
  }

  // ---------------------------------------------------------------- an edit nobody verifies

  /** This process remembers a verification plan whose last check failed. */
  predicate FailureKept(t: Task) {
    t.mem.Some? && t.mem.value.plan.Some? && t.mem.value.executed > 0 && !t.mem.value.lastPassed
  }

  function ChecksRun(j: Log): nat {
    Count(j, (e: Entry) => e.VerifyIssued?)
  }

  predicate NoCheck(ws: seq<Write>) {
    forall w :: w in ws ==> !(w.Append? && w.entry.VerifyIssued?) && w != Goto(Completed)
  }

  lemma {:induction false} NoCheckCounts(j: Log, ws: seq<Write>)
    requires NoCheck(ws)
    ensures ChecksRun(j + Entries(ws)) == ChecksRun(j)
  {
    CountKept(j, ws, (e: Entry) => e.VerifyIssued?);
  }

  lemma {:induction false} CheckCounts(j: Log, check: Check, more: seq<Write>)
    ensures ChecksRun(j + Entries([Append(VerifyIssued(check))] + more)) > ChecksRun(j)
  {
    var issued, p := Append(VerifyIssued(check)), (e: Entry) => e.VerifyIssued?;
    EntriesConcat([issued], more);
    EntriesFew(issued, issued);
    assert j + Entries([issued] + more) == (j + [VerifyIssued(check)]) + Entries(more);
    CountConcat(j + [VerifyIssued(check)], Entries(more), p);
    assert (j + [VerifyIssued(check)])[..|j|] == j;
  }

  /** A remembered plan has had a check run, and a completed task remembers no failed one. */
  predicate CheckStarted(t: Task) {
    t.mem.Some? && t.mem.value.plan.Some? ==>
      t.mem.value.executed > 0 && (t.d.state.Completed? ==> t.mem.value.lastPassed)
  }

  lemma {:induction false} VerifyStarts(t: Task, e: Env)
    requires CheckStarted(t)
    ensures var eff := VerifyStep(t, e);
      eff.mem.Some? && eff.mem.value.plan.Some? ==>
        eff.mem.value.executed > 0 && (Goto(Completed) in eff.writes ==> eff.mem.value.lastPassed)
  {
    hide ReplayDetector, ReplayLedger, FailureObserved;
  }

  lemma {:induction false} StartedAlways(events: seq<Event>)
    ensures CheckStarted(After(events))
  {
    hide VerifyStep, DiagnoseStep, RepairStep, ImplementStep, ImplementPlanStep, PlanningRound;
    if events != [] {
      var before, ev := events[..|events| - 1], events[|events| - 1];
      StartedAlways(before);
      var t := After(before);
      if !t.d.state.Completed? && Step(t, ev).d.state.Completed? {
        CompletesOnlyVerified(before, ev);
        LastState(t.d, Do(t, ev.action).writes);
      }
      if ev.Run? && ev.action.Drive? {
        StartedByDriver(t, ev.action.env);
      }
    }
  }

  lemma {:induction false} StartedByDriver(t: Task, e: Env)
    requires CheckStarted(t)
    ensures var m := DriveStep(t, e).mem;
      m.Some? && m.value.plan.Some? ==>
        m.value.executed > 0 && (t.d.state.Verifying? && Goto(Completed) in DriveStep(t, e).writes ==> m.value.lastPassed)
        && (t.d.state.Completed? ==> m.value.lastPassed)
  {
    hide VerifyStep, DiagnoseStep, RepairStep, ImplementStep, ImplementPlanStep, PlanningRound;
    if t.d.state.Verifying? {
      VerifyStarts(t, e);
    } else if t.d.state.Diagnosing? {
      DiagnosisKeepsPlan(t, e);
    } else if t.d.state.Repairing? {
      RepairKeepsPlan(t, e);
    } else {
      MemoryIsKept(t, e);
    }
  }

  lemma {:induction false} KeptVerify(t: Task, e: Env)
    requires FailureKept(t)
    ensures VerifyStep(t, e) == Effect([Goto(Diagnosing)], t.mem, t.fed)
  {
  }

  /** What else a verification does: it completes, or it issues a check, and remembers a failure if and
      only if that check failed. */
  lemma {:induction false} UnkeptVerify(t: Task, e: Env)
    requires CheckStarted(t) && !FailureKept(t)
    ensures var eff := VerifyStep(t, e);
      && eff.writes != []
      && (|| eff.writes[|eff.writes| - 1] == Goto(Completed)
          || (eff.writes[0].Append? && eff.writes[0].entry.VerifyIssued?))
      && (FailureKept(Task(t.d, eff.mem, [])) <==> eff.writes[|eff.writes| - 1] == Goto(Diagnosing))
      && (eff.writes[|eff.writes| - 1].Goto? || forall w :: w in eff.writes ==> !w.Goto?)
  {
    hide ReplayDetector, ReplayLedger, FailureObserved;
  }

  /** A driven verification runs a check or completes if and only if this process does not remember a plan
      whose last check failed; otherwise it only goes back to diagnosing. And it remembers one afterwards if
      and only if it goes to Diagnosing. */
  lemma {:induction false} ChecksUnlessKept(events: seq<Event>, e: Env)
    requires After(events).d.state.Verifying?
    ensures var t := After(events); var t' := Step(t, Run(Drive(e)));
      && (ChecksRun(t'.d.journal) > ChecksRun(t.d.journal) || t'.d.state.Completed? <==> !FailureKept(t))
      && (FailureKept(t) ==> t'.d == t.d.(state := Diagnosing, pausedFrom := None) && t'.mem == t.mem)
      && (FailureKept(t') <==> t'.d.state.Diagnosing?)
  {
    hide VerifyStep, FailureKept, ChecksRun, Entries, ApplyAll;
    var t := After(events);
    var ws, t' := VerifyStep(t, e).writes, Step(t, Run(Drive(e)));
    StartedAlways(events);
    assert t' == Task(ApplyAll(t.d, ws), VerifyStep(t, e).mem, VerifyStep(t, e).fed);
    MemoryOnly(Task(t.d, t'.mem, []), t');
    MemoryOnly(t', Task(t.d, t'.mem, []));
    if FailureKept(t) {
      KeptVerify(t, e);
      ApplyFew(t.d, Goto(Diagnosing), Goto(Diagnosing), Goto(Diagnosing));
      MemoryOnly(t, t');
    } else {
      UnkeptVerify(t, e);
      JournalAfter(t.d, ws);
      var last := ws[|ws| - 1];
      StateAfter(t.d, ws, if last.Goto? then |ws| else 0);
      if last != Goto(Completed) {
        assert ws == [Append(VerifyIssued(ws[0].entry.check))] + ws[1..];
        CheckCounts(t.d.journal, ws[0].entry.check, ws[1..]);
      }
    }
  }

  lemma {:induction false} MemoryOnly(t: Task, t': Task)
    requires t.mem == t'.mem
    ensures FailureKept(t) ==> FailureKept(t')
  {
  }

  /** The events after which this process no longer remembers the failed check: a crash; a diagnosis that
      escalates, switches the role or gives up; a repair turn that is recorded and was no question; and
      what is driven once the task is over. */
  predicate Forgets(t: Task, ev: Event) {
    || ev.Crash?
    || (ev.action.Drive?
        && var e := ev.action.env;
           match t.d.state
           case Diagnosing => var d := DiagnosisDecision(t, e); d.EscalateStrategy? || d.SwitchRole? || d.GiveUp?
           case Repairing => !ToolInterrupted(t.d.journal) && RepairRecords(e) && !e.reply.Ask?
           case s => s.Terminal())
  }

  lemma {:induction false} ForgetsExactly(t: Task, ev: Event)
    requires FailureKept(t)
    ensures FailureKept(Step(t, ev)) <==> !Forgets(t, ev)
  {
    hide VerifyStep, DiagnoseStep, RepairStep, ImplementStep, ImplementPlanStep, PlanningRound, ApplyAll;
    hide DiagnosisDecision, LastTool, RepairRecords;
    if ev.Run? && ev.action.Drive? {
      var e := ev.action.env;
      if t.d.state.Verifying? {
        KeptVerify(t, e);
      } else if t.d.state.Diagnosing? {
        KeptByDiagnosis(t, e);
      } else if t.d.state.Repairing? {
        KeptByRepair(t, e);
      } else {
        MemoryIsKept(t, e);
      }
    }
  }

  lemma {:induction false} KeptByDiagnosis(t: Task, e: Env)
    requires FailureKept(t)
    ensures var d := DiagnosisDecision(t, e);
      FailureKept(Task(t.d, DiagnoseStep(t, e).mem, [])) <==> !(d.EscalateStrategy? || d.SwitchRole? || d.GiveUp?)
  {
    hide DiagnosisDecision, DiagnosisCycle, Observe;
  }

  lemma {:induction false} KeptByRepair(t: Task, e: Env)
    requires FailureKept(t)
    ensures FailureKept(Task(t.d, RepairStep(t, e).mem, [])) <==>
            !(!ToolInterrupted(t.d.journal) && RepairRecords(e) && !e.reply.Ask?)
  {
    hide Observe, LastTool, RepairRecords, RepairWrites, AttemptFor;
  }

  /** While the failure is kept no event but those runs a check, and none completes the task. */
  lemma {:induction false} KeptRunsNoCheck(t: Task, ev: Event)
    requires FailureKept(t)
    ensures NoCheck(Made(t, ev)) || (!ev.action.Drive? && Place(t.d).Completed?)
  {
    hide VerifyStep, DiagnoseStep, RepairStep, ImplementStep, ImplementPlanStep, PlanningRound;
    var ws := Do(t, ev.action).writes;
    if ev.action.Drive? {
      if t.d.state.Verifying? {
        KeptVerify(t, ev.action.env);
      } else {
        DriveMay(t, ev.action.env);
      }
    } else {
      ClientMay(t, ev.action);
    }
    assert forall w :: w in Made(t, ev) ==> w in ws;
  }

  /** No check has run and the task has not completed. */
  predicate Unchecked(t: Task, checks: nat) {
    ChecksRun(t.d.journal) == checks && !t.d.state.Completed?
  }

  /** None of these events, each at its turn, makes the process forget the failed check. */
  predicate NeverForgotten(t: Task, more: seq<Event>) {
    forall n :: 0 <= n < |more| ==> !Forgets(Later(t, more[..n]), more[n])
  }

  lemma {:induction false} NotForgottenBefore(t: Task, more: seq<Event>)
    requires more != []
    ensures var before := more[..|more| - 1];
      NeverForgotten(t, more) <==> NeverForgotten(t, before) && !Forgets(Later(t, before), more[|more| - 1])
  {
    hide Forgets, Later;
    var before := more[..|more| - 1];
    assert forall n :: 0 <= n < |before| ==> before[..n] == more[..n] && before[n] == more[n];
  }

  lemma {:induction false} UncheckedEvent(events: seq<Event>, ev: Event)
    requires FailureKept(After(events))
    ensures var t, t' := After(events), Step(After(events), ev);
      !t'.d.state.Completed? && ChecksRun(t'.d.journal) == ChecksRun(t.d.journal)
  {
    hide FailureKept, Do;
    var t, made := After(events), Made(After(events), ev);
    PausesAreSound(events);
    StartedAlways(events);
    KeptNotCompleted(t);
    KeptRunsNoCheck(t, ev);
    LastState(t.d, made);
    JournalAfter(t.d, made);
    NoCheckCounts(t.d.journal, made);
  }

  lemma {:induction false} KeptNotCompleted(t: Task)
    requires FailureKept(t) && CheckStarted(t)
    ensures !t.d.state.Completed?
  {
  }

  /** From a failed check on, on every run: the failure is kept all along if and only if no event makes the
      process forget it; and until one does, no check runs and the task does not complete - whatever the
      user is asked and answers, whatever the model then edits, and however often the task comes back to
      Verifying. */
  lemma {:induction false} KeptUntilForgotten(before: seq<Event>, more: seq<Event>)
    requires FailureKept(After(before))
    ensures var t := After(before);
      && ((forall n :: 0 <= n <= |more| ==> FailureKept(Later(t, more[..n]))) <==> NeverForgotten(t, more))
      && (NeverForgotten(t, more) ==> Unchecked(Later(t, more), ChecksRun(t.d.journal)))
  {
    hide Step, FailureKept, Forgets, NeverForgotten, ChecksRun;
    var t := After(before);
    if more == [] {
      NoneForgotten(t);
      StartedAlways(before);
      KeptNotCompleted(t);
      assert more[..0] == [];
    } else {
      var n := |more| - 1;
      var sofar, ev := more[..n], more[n];
      KeptUntilForgotten(before, sofar);
      NotForgottenBefore(t, more);
      LaterIsAfter(before, sofar);
      assert forall k :: 0 <= k <= n ==> sofar[..k] == more[..k];
      assert more[..|more|] == more && sofar[..n] == sofar;
      assert Later(t, more) == Step(Later(t, sofar), ev);
      if FailureKept(Later(t, sofar)) {
        ForgetsExactly(Later(t, sofar), ev);
        UncheckedEvent(before + sofar, ev);
      }
    }
  }

  lemma {:induction false} NoneForgotten(t: Task)
    ensures NeverForgotten(t, []) && Later(t, []) == t
  {
  }

  lemma {:induction false} LaterIsAfter(before: seq<Event>, more: seq<Event>)
    ensures Later(After(before), more) == After(before + more)
  {
    hide Step;
    if more == [] {
      assert before + more == before;
    } else {
      LaterIsAfter(before, more[..|more| - 1]);
      assert (before + more)[..|before + more| - 1] == before + more[..|more| - 1];
    }
  }

  /** A driven step of the verify, diagnose, repair loop, or of a task that is over. */
  predicate InLoopOrOver(t: Task, ev: Event) {
    ev.action.Drive? && (InRepairLoop(t.d.state) || t.d.state.Terminal())
  }

  lemma {:induction false} OutsideTheLoop(t: Task, more: seq<Event>)
    requires forall n :: 0 <= n < |more| ==> more[n].Run? && !InLoopOrOver(Later(t, more[..n]), more[n])
    ensures Later(t, more).mem == t.mem
  {
    hide ApplyAll, VerifyStep, DiagnoseStep, RepairStep, ImplementStep, ImplementPlanStep, PlanningRound;
    if more != [] {
      var before := more[..|more| - 1];
      assert forall n :: 0 <= n < |before| ==> before[..n] == more[..n] && before[n] == more[n];
      OutsideTheLoop(t, before);
      var ev := more[|more| - 1];
      if ev.action.Drive? {
        MemoryIsKept(Later(t, before), ev.action.env);
      }
    }
  }

  /** The user answers, the model goes on, and the task comes back to Verifying: what was edited is checked
      there if and only if this process remembered no verification plan when the question was asked. */
  lemma {:induction false} AnsweredEditIsChecked(before: seq<Event>, more: seq<Event>, e: Env)
    requires After(before).d.state.WaitingForUser?
    requires var t := Step(After(before), Run(Respond));
      && (forall n :: 0 <= n < |more| ==> more[n].Run? && !InLoopOrOver(Later(t, more[..n]), more[n]))
      && Later(t, more).d.state.Verifying?
    ensures var asked := After(before); var t := Later(Step(asked, Run(Respond)), more); var t' := Step(t, Run(Drive(e)));
      ChecksRun(t'.d.journal) > ChecksRun(t.d.journal) || t'.d.state.Completed? <==>
        asked.mem.None? || asked.mem.value.plan.None?
  {
    hide ChecksRun, Later, ApplyAll, InLoopOrOver;
    var asked, answered := After(before), before + [Run(Respond)];
    assert answered[..|before|] == before;
    assert After(answered) == Step(asked, Run(Respond));
    OutsideTheLoop(After(answered), more);
    LaterIsAfter(answered, more);
    ChecksUnlessKept(answered + more, e);
    StartedAlways(before);
    CompletionIsEarned(before);
    assert Later(After(answered), more).mem == asked.mem;
  }

  predicate KeptForDiagnosis(t: Task) {
    Place(t.d).Diagnosing? ==> FailureKept(t)
  }

  lemma {:induction false} ElsewhereKept(t: Task, a: Action)
    requires KeptForDiagnosis(t) && !(a.Drive? && (t.d.state.Verifying? || t.d.state.Diagnosing?))
    ensures KeptForDiagnosis(Step(t, Run(a)))
  {
    hide VerifyStep, DiagnoseStep, RepairStep, ImplementStep, ImplementPlanStep, PlanningRound, FailureKept, ApplyAll;
    var t', ws := Step(t, Run(a)), Do(t, a).writes;
    PlaceAfter(t.d, ws);
    if a.Drive? {
      DriveMay(t, a.env);
      if !t.d.state.Repairing? {
        MemoryIsKept(t, a.env);
        if t'.mem == t.mem {
          MemoryOnly(t, t');
        }
      }
    } else {
      ClientMay(t, a);
      MemoryOnly(t, t');
    }
  }

  lemma {:induction false} KeptByTheLoop(events: seq<Event>, e: Env)
    requires After(events).d.state.Verifying? || After(events).d.state.Diagnosing?
    ensures KeptForDiagnosis(Step(After(events), Run(Drive(e))))
  {
    hide Step, FailureKept, ChecksRun;
    if After(events).d.state.Verifying? {
      ChecksUnlessKept(events, e);
      VerifyMoves(After(events), e);
    } else {
      DiagnosisMoves(After(events), e);
    }
  }

  lemma {:induction false} KeptWithoutCrash(events: seq<Event>)
    requires Crashes(events) == 0
    ensures KeptForDiagnosis(After(events))
  {
    hide Do, KeptForDiagnosis;
    if events == [] {
      assert KeptForDiagnosis(NEW_TASK) by {
        NothingKept();
      }
    } else {
      var before, ev := events[..|events| - 1], events[|events| - 1];
      KeptWithoutCrash(before);
      var t := After(before);
      if ev.action.Drive? && (t.d.state.Verifying? || t.d.state.Diagnosing?) {
        KeptByTheLoop(before, ev.action.env);
      } else {
        ElsewhereKept(t, ev.action);
      }
    }
  }

  lemma {:induction false} NothingKept()
    ensures KeptForDiagnosis(NEW_TASK)
  {
  }

  /** Without a crash every diagnosis has the failed check remembered, and a question it asks leaves it so:
      no edit after such a question is ever checked on the way back. */
  lemma {:induction false} DiagnosisQuestionsKeep(events: seq<Event>, e: Env)
    requires Crashes(events) == 0 && After(events).d.state.Diagnosing?
    ensures var t := After(events); var t' := Step(t, Run(Drive(e)));
      FailureKept(t) && (t'.d.state.WaitingForUser? ==> FailureKept(t'))
  {
    hide FailureKept, DiagnosisDecision, DiagnoseStep, DiagnosisEntries, ApplyAll;
    var t := After(events);
    KeptWithoutCrash(events);
    ForgetsExactly(t, Run(Drive(e)));
    if Step(t, Run(Drive(e))).d.state.WaitingForUser? {
      AskingEnds(t, e);
    }
  }

  lemma {:induction false} AskingEnds(t: Task, e: Env)
    requires t.d.state.Diagnosing? && Step(t, Run(Drive(e))).d.state.WaitingForUser?
    ensures DiagnosisDecision(t, e).AskUser?
  {
    hide DiagnosisDecision, DiagnosisEntries, ApplyAll, DiagnosisCycle, Observe, AfterDecision;
    var ws, last := DiagnoseStep(t, e).writes, DecisionWrites(DiagnosisDecision(t, e));
    assert ws[|ws| - 1] == last[|last| - 1];
    StateAfter(t.d, ws, |ws|);
  }

  // ---------------------------------------------------------------- an attempt too many

  /** A repair turn that records its attempt and does not fail the task. */
  predicate AttemptGoesOn(e: Env) {
    RepairRecords(e) && !(e.reply.UseTool? && e.tool.Denied?)
  }

  /** The writes of a repair turn up to its recorded attempt. */
  function UpToAttempt(t: Task, e: Env): seq<Write> {
    RepairOpening(e) + [Append(Attempted(AttemptFor(Take(t), e)))]
  }

  /** The one attempt a crash can add to the budget: between the journaled attempt and the transition
      back, the task is still repairing, and the restart makes another repair turn without a diagnosis, so
      without asking whether the budget allows one. */
  lemma {:induction false} CrashGrantsAttempt(t: Task, e: Env, e': Env)
    requires t.d.state.Repairing? && !ToolInterrupted(t.d.journal) && AttemptGoesOn(e) && AttemptGoesOn(e')
    ensures var uninterrupted := Step(t, Run(Drive(e)));
      !uninterrupted.d.state.Repairing? && A.Attempts(uninterrupted.d.journal) == A.Attempts(t.d.journal) + 1
    ensures var restarted := Step(Step(t, Crash(Drive(e), |UpToAttempt(t, e)|)), Run(Drive(e')));
      !restarted.d.state.Repairing? && A.Attempts(restarted.d.journal) == A.Attempts(t.d.journal) + 2
  {
    hide UpToAttempt, LastTool, A.Attempts, Step, RepairRecords;
    AttemptCounted(t, e);
    CrashAfterAttempt(t, e);
    AttemptCounted(Step(t, Crash(Drive(e), |UpToAttempt(t, e)|)), e');
  }

  lemma {:induction false} CrashAfterAttempt(t: Task, e: Env)
    requires t.d.state.Repairing? && !ToolInterrupted(t.d.journal) && AttemptGoesOn(e)
    ensures var crashed := Step(t, Crash(Drive(e), |UpToAttempt(t, e)|));
      && crashed.d.state.Repairing? && !ToolInterrupted(crashed.d.journal)
      && A.Attempts(crashed.d.journal) == A.Attempts(t.d.journal) + 1
  {
    hide Take, AttemptFor, LastTool, RepairStep, RepairClosing, RepairRecords, Entries, ApplyAll, A.Attempts;
    var ws := UpToAttempt(t, e);
    RepairGoesOn(t, e);
    assert (ws + RepairClosing(e))[..|ws|] == ws;
    assert Step(t, Crash(Drive(e), |ws|)).d == ApplyAll(t.d, ws);
    StateAfter(t.d, ws, 0);
    JournalAfter(t.d, ws);
    AttemptRecorded(t, e);
  }

  lemma {:induction false} RepairGoesOn(t: Task, e: Env)
    requires t.d.state.Repairing? && !ToolInterrupted(t.d.journal) && AttemptGoesOn(e)
    ensures RepairStep(t, e).writes == RepairWrites(Take(t), e) == UpToAttempt(t, e) + RepairClosing(e)
    ensures RepairClosing(e) == [Goto(if e.reply.Ask? then WaitingForUser else Verifying)]
    ensures forall w :: w in UpToAttempt(t, e) ==> !w.Goto?
  {
    hide Take, AttemptFor, LastTool, RepairOpening, RepairMemory, TakeFed;
    OpensQuietly(e);
  }

  lemma {:induction false} OpensQuietly(e: Env)
    requires AttemptGoesOn(e)
    ensures forall w :: w in RepairOpening(e) ==> !w.Goto?
  {
  }

  lemma {:induction false} EntriesUpTo(t: Task, e: Env)
    requires t.d.state.Repairing? && !ToolInterrupted(t.d.journal) && AttemptGoesOn(e)
    ensures Entries(UpToAttempt(t, e)) == Entries(RepairWrites(Take(t), e))
  {
    hide Take, AttemptFor, LastTool, RepairStep, RepairRecords, RepairWrites, UpToAttempt, RepairClosing, Entries;
    RepairGoesOn(t, e);
    EntriesConcat(UpToAttempt(t, e), RepairClosing(e));
    EntriesFew(RepairClosing(e)[0], RepairClosing(e)[0]);
  }

  lemma {:induction false} AttemptRecorded(t: Task, e: Env)
    requires t.d.state.Repairing? && !ToolInterrupted(t.d.journal) && AttemptGoesOn(e)
    ensures var j' := t.d.journal + Entries(UpToAttempt(t, e));
      && j' == t.d.journal + Entries(RepairWrites(Take(t), e))
      && A.Attempts(j') == A.Attempts(t.d.journal) + 1 && !ToolInterrupted(j')
  {
    hide Take, AttemptFor, LastTool, RepairStep, RepairRecords, RepairWrites, UpToAttempt, A.Attempts, A.LedgerOf, RepairClosing, Entries;
    hide RepairOpening, RepairMemory, TakeFed, AfterRepairTurn, ApplyAll;
    EntriesUpTo(t, e);
    RepairTool(Take(t), t.d.journal, e);
    RepairAttempts(Take(t), t.d.journal, e);
    A.LedgerCounts(t.d.journal);
    A.LedgerCounts(t.d.journal + Entries(RepairWrites(Take(t), e)));
  }

  lemma {:induction false} AttemptCounted(t: Task, e: Env)
    requires t.d.state.Repairing? && !ToolInterrupted(t.d.journal) && AttemptGoesOn(e)
    ensures var t' := Step(t, Run(Drive(e)));
      !t'.d.state.Repairing? && A.Attempts(t'.d.journal) == A.Attempts(t.d.journal) + 1
  {
    hide Take, AttemptFor, LastTool, RepairStep, RepairRecords, RepairWrites, UpToAttempt, A.Attempts, ApplyAll, Entries;
    var ws := RepairStep(t, e).writes;
    RepairGoesOn(t, e);
    assert Step(t, Run(Drive(e))).d == ApplyAll(t.d, ws);
    assert ws[|ws| - 1] == RepairClosing(e)[0];
    StateAfter(t.d, ws, |ws|);
    JournalAfter(t.d, ws);
    AttemptRecorded(t, e);
  }
}
