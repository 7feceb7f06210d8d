/** Where each event leads: the state, the workspace and the plan after any step of the driver and any
    action of a client, told from the state before and the answers alone. */
module AgentOutcomes {
  import opened Options
  import opened LoopDetect
  import R = Repair
  import opened Journal
  import opened Plans
  import opened Agent
  import opened AgentFindings

  // ---------------------------------------------------------------- writes one after the other

  lemma {:induction false} NothingApplied(d: Durable)
    ensures ApplyAll(d, []) == d
  {
  }

  lemma {:induction false} Then(d: Durable, ws: seq<Write>, w: Write)
    ensures ApplyAll(d, ws + [w]) == Apply(ApplyAll(d, ws), w)
  {
    assert (ws + [w])[..|ws|] == ws;
  }

  lemma {:induction false} ThenFails(d: Durable, ws: seq<Write>)
    ensures var d' := ApplyAll(d, ws);
      ApplyAll(d, ws + FAILING) == d'.(journal := d'.journal + [RecoveryNote], state := Failed, pausedFrom := None)
  {
    ApplyConcat(d, ws, FAILING);
    ApplyFew(ApplyAll(d, ws), FAILING[0], FAILING[1], FAILING[1]);
  }

  /** A model turn: the call and what it was given, and then its answer. */
  lemma {:induction false} TurnBegins(d: Durable, phase: Phase)
    ensures var ask := [Append(ModelCall(phase)), Append(ContextRetrieved)];
      && ApplyAll(d, ask) == d.(journal := d.journal + [ModelCall(phase), ContextRetrieved])
      && ApplyAll(d, ask + [Append(ModelAnswered(phase))])
         == d.(journal := d.journal + [ModelCall(phase), ContextRetrieved, ModelAnswered(phase)])
  {
    var ask := [Append(ModelCall(phase)), Append(ContextRetrieved)];
    ApplyFew(d, ask[0], ask[1], ask[1]);
    Then(d, ask, Append(ModelAnswered(phase)));
  }

  // ---------------------------------------------------------------- tool calls

  /** What a tool call leaves in the journal: that it was issued, and what became of it. One that cannot go on
      also leaves the note the application fails the task with. */
  function ToolLog(s: State, r: ToolOutcome): Log {
    match r
    case Executed => [ToolIssued, ToolResult]
    case AskRequired => if s.Implementing? then [ToolIssued, PermissionAsk] else [ToolIssued, PermissionAsk, RecoveryNote]
    case Denied => [ToolIssued, ToolDenied]
    case UnknownTool => [ToolIssued, RecoveryNote]
  }

  /** A tool call that is the last act of a handler. Only one that ran changes the workspace. Implementing
      waits for a permission; Repairing may not, and fails. */
  lemma {:induction false} ToolCallLeads(d: Durable, r: ToolOutcome)
    requires d.state.Implementing? || d.state.Repairing?
    ensures var d' := ApplyAll(d, ToolAndStop(d.state, r));
      && d'.plan == d.plan
      && d'.world == d.world + (if r.Executed? then [Edited] else [])
      && d'.state == (if r.Executed? then d.state
                      else if r.AskRequired? && d.state.Implementing? then WaitingForPermission
                      else Failed)
      && d'.journal == d.journal + ToolLog(d.state, r)
  {
    hide ApplyAll;
    var ws := ToolWrites(d.state, r);
    NothingApplied(d);
    match r
    case Executed =>
      ApplyFew(d, ws[0], ws[1], ws[2]);
      assert ToolAndStop(d.state, r) == [ws[0], ws[1], ws[2]];
    case AskRequired =>
      var asked := [Append(ToolIssued), Append(PermissionAsk)];
      ApplyFew(d, asked[0], asked[1], Goto(WaitingForPermission));
      ThenFails(d, asked);
      assert ToolAndStop(d.state, r) ==
        if d.state.Implementing? then [asked[0], asked[1], Goto(WaitingForPermission)] else asked + FAILING;
    case Denied =>
      ApplyFew(d, ws[0], ws[1], ws[2]);
      assert ToolAndStop(d.state, r) == [ws[0], ws[1], ws[2]];
    case UnknownTool =>
      ApplyFew(d, ws[0], ws[0], ws[0]);
      ThenFails(d, ws);
  }

  /** A call that a crash cut off is made again before anything else, without asking the model. */
  lemma {:induction false} InterruptedCallRedone(t: Task, e: Env)
    requires ToolInterrupted(t.d.journal) && (t.d.state.Implementing? || t.d.state.Repairing?)
    ensures var t' := Step(t, Run(Drive(e)));
      && t'.mem == t.mem && t'.d.plan == t.d.plan
      && t'.d.world == t.d.world + (if e.tool.Executed? then [Edited] else [])
      && t'.d.state == (if e.tool.Executed? then (if t.d.state.Repairing? then Verifying else Implementing)
                        else if e.tool.AskRequired? && t.d.state.Implementing? then WaitingForPermission
                        else Failed)
      && t.d.journal <= t'.d.journal
      && forall k :: |t.d.journal| <= k < |t'.d.journal| ==> IsToolEntry(t'.d.journal[k]) || t'.d.journal[k].RecoveryNote?
  {
    hide ToolAndStop, LastTool, Take, TakeFed, ApplyAll;
    var ws := ToolAndStop(t.d.state, e.tool);
    ToolCallLeads(t.d, e.tool);
    Then(t.d, ws, Goto(Verifying));
    assert ws + [] == ws;
  }

  // ---------------------------------------------------------------- implementing without a plan

  /** One turn without a plan: a question waits for the user, a finished model hands over to verification,
      and only a tool call that ran changes the workspace. */
  lemma {:induction false} UnplannedTurnLeads(t: Task, e: Env)
    requires t.d.state.Implementing? && t.d.plan == None && !ToolInterrupted(t.d.journal)
    ensures var t' := Step(t, Run(Drive(e))); var s := t'.d.state;
      && (s.WaitingForUser? <==> e.reply.Ask?)
      && (s.Verifying? <==> e.reply.Finish?)
      && (s.WaitingForPermission? <==> e.reply.UseTool? && e.tool.AskRequired?)
      && (s.Implementing? <==> e.reply.UseTool? && e.tool.Executed?)
      && (s.Failed? <==> e.reply.Unavailable? || e.reply.Malformed?
                         || (e.reply.UseTool? && (e.tool.Denied? || e.tool.UnknownTool?)))
      && t'.d.world == t.d.world + (if e.reply.UseTool? && e.tool.Executed? then [Edited] else [])
      && t'.mem == t.mem && t'.d.plan == None
      && t.d.journal + [ModelCall(ImplementTurn), ContextRetrieved] <= t'.d.journal
  {
    hide ToolAndStop, LastTool, ApplyAll, ToolLog;
    var ask := [Append(ModelCall(ImplementTurn)), Append(ContextRetrieved)];
    var answered := ask + [Append(ModelAnswered(ImplementTurn))];
    TurnBegins(t.d, ImplementTurn);
    match e.reply
    case Unavailable => ThenFails(t.d, ask);
    case Malformed => ThenFails(t.d, answered);
    case Finish => Then(t.d, answered, Goto(Verifying));
    case Ask => Then(t.d, answered, Goto(WaitingForUser));
    case UseTool =>
      ApplyConcat(t.d, answered, ToolAndStop(t.d.state, e.tool));
      ToolCallLeads(ApplyAll(t.d, answered), e.tool);
  }

  /** A planned task whose plan no longer validates fails; one all of whose steps are completed is verified. */
  lemma {:induction false} WalkedPlanLeads(t: Task, e: Env, p: Plan)
    requires t.d.state.Implementing? && t.d.plan == Some(p) && !ToolInterrupted(t.d.journal)
    ensures !e.stillValid ==>
      Step(t, Run(Drive(e))).d == t.d.(state := Failed, pausedFrom := None, journal := t.d.journal + [RecoveryNote])
    ensures e.stillValid && (forall s :: s in p.Order() ==> s in CompletedSteps(t.d.journal)) ==>
      Step(t, Run(Drive(e))).d == t.d.(state := Verifying, pausedFrom := None)
  {
    hide LastTool, ApplyAll, CompletedSteps, RawPlan.Order;
    NothingApplied(t.d);
    ThenFails(t.d, []);
    assert [] + FAILING == FAILING;
    ApplyFew(t.d, Goto(Verifying), Goto(Verifying), Goto(Verifying));
  }

  // ---------------------------------------------------------------- waiting

  /** Nothing has happened since `d`, which was waiting, but pauses, resumes and perhaps a cancel. */
  predicate StillWaits(d: Durable, since: Durable) {
    && d.journal == since.journal && d.world == since.world && d.plan == since.plan
    && (|| (d.state == since.state && !d.state.Paused?)
        || (d.state.Paused? && d.pausedFrom == Some(since.state))
        || d.state.Cancelled?)
  }

  lemma {:induction false} WaitsOn(t: Task, ev: Event, since: Durable)
    requires since.state.WaitingForUser? || since.state.WaitingForPermission?
    requires StillWaits(t.d, since) && !ev.action.Respond? && !ev.action.Resolve?
    ensures StillWaits(Step(t, ev).d, since)
  {
    hide ApplyAll, ImplementStep, ImplementPlanStep, PlanningRound, VerifyStep, DiagnoseStep, RepairStep;
    var ws, made := Do(t, ev.action).writes, Made(t, ev);
    assert |ws| <= 1 && (ws != [] ==> ws[0].Goto?);
    NothingApplied(t.d);
    if made == [] {
      assert Step(t, ev).d == t.d;
    } else {
      assert made == [ws[0]];
      ApplyFew(t.d, ws[0], ws[0], ws[0]);
    }
  }

  /** A task that waits for the user's answer or for a permission does nothing until it comes, whatever is
      driven, paused, resumed or crashes meanwhile: nothing is journaled, nothing is edited or checked, and
      it does not complete. */
  lemma {:induction false} NothingBeforeTheAnswer(t: Task, more: seq<Event>)
    requires t.d.state.WaitingForUser? || t.d.state.WaitingForPermission?
    requires forall n :: 0 <= n < |more| ==> !more[n].action.Respond? && !more[n].action.Resolve?
    ensures var t' := Later(t, more);
      && StillWaits(t'.d, t.d) && ChecksRun(t'.d.journal) == ChecksRun(t.d.journal) && !t'.d.state.Completed?
  {
    hide Step;
    if more != [] {
      var before := more[..|more| - 1];
      NothingBeforeTheAnswer(t, before);
      WaitsOn(Later(t, before), more[|more| - 1], t.d);
    }
  }

  /** So after a question asked while implementing without a plan. */
  lemma {:induction false} QuestionIsAnsweredFirst(t: Task, e: Env, more: seq<Event>)
    requires t.d.state.Implementing? && t.d.plan == None && !ToolInterrupted(t.d.journal) && e.reply.Ask?
    requires forall n :: 0 <= n < |more| ==> !more[n].action.Respond? && !more[n].action.Resolve?
    ensures var asked := Step(t, Run(Drive(e))); var t' := Later(asked, more);
      && asked.d.state.WaitingForUser? && asked.d.world == t.d.world
      && StillWaits(t'.d, asked.d) && ChecksRun(t'.d.journal) == ChecksRun(asked.d.journal) && !t'.d.state.Completed?
  {
    hide Step, Later, ChecksRun, LastTool;
    UnplannedTurnLeads(t, e);
    NothingBeforeTheAnswer(Step(t, Run(Drive(e))), more);
  }

  // ---------------------------------------------------------------- planning

  /** The first three states only lead on to planning; without model-authored plans planning leads straight
      to implementing. */
  lemma {:induction false} OpeningLeads(t: Task, e: Env)
    ensures var t' := Step(t, Run(Drive(e)));
      match t.d.state
      case Idle => t'.d == t.d.(state := Understanding, pausedFrom := None)
      case Understanding => t'.d == t.d.(state := Discovery, pausedFrom := None)
      case Discovery => t'.d == t.d.(state := Planning, pausedFrom := None, journal := t.d.journal + [ContextRetrieved])
      case Planning => !e.modelAuthored ==> t'.d == t.d.(state := Implementing, pausedFrom := None)
      case _ => true
  {
    hide PlanningRound, ImplementStep, ImplementPlanStep, VerifyStep, DiagnoseStep, RepairStep;
    ApplyFew(t.d, Goto(Understanding), Goto(Understanding), Goto(Understanding));
    ApplyFew(t.d, Goto(Discovery), Goto(Discovery), Goto(Discovery));
    ApplyFew(t.d, Append(ContextRetrieved), Goto(Planning), Goto(Planning));
    ApplyFew(t.d, Goto(Implementing), Goto(Implementing), Goto(Implementing));
  }

  /** A round of planning is due: the model writes plans, none is accepted, and attempts are left. */
  predicate PlanIsDue(t: Task, e: Env) {
    && t.d.state.Planning? && e.modelAuthored
    && !HasAcceptedPlan(t.d.journal) && Rejections(t.d.journal) < 3
  }

  lemma {:induction false} SilenceFailsPlanning(t: Task, e: Env)
    requires PlanIsDue(t, e) && UnprocessedSubmission(t.d.journal) == None
    requires e.reply.Unavailable? || e.reply.Malformed?
    ensures Step(t, Run(Drive(e))).d ==
      t.d.(state := Failed, pausedFrom := None, journal := t.d.journal + [ModelCall(PlanTurn), RecoveryNote])
  {
    hide HasAcceptedPlan, Rejections, UnprocessedSubmission;
    var ask := Append(ModelCall(PlanTurn));
    assert [ask] + FAILING == [ask, FAILING[0], FAILING[1]];
    ApplyFew(t.d, ask, FAILING[0], FAILING[1]);
  }

  /** A round of planning that has something to decide: the stored submission, or else the model's. An answer
      without a submission is rejected whatever validation says. An accepted plan is the one validation made,
      and it is walked next; the rejection that uses up the attempts fails the task. */
  lemma {:induction false} PlanningDecides(t: Task, e: Env)
    requires PlanIsDue(t, e)
    requires UnprocessedSubmission(t.d.journal) == None ==> !e.reply.Unavailable? && !e.reply.Malformed?
    ensures var stored := UnprocessedSubmission(t.d.journal);
      var asked := t.d.journal + if stored == None then [ModelCall(PlanTurn), PlanAnswered(e.submission)] else [];
      var submission := if stored == None then e.submission else stored.value;
      Step(t, Run(Drive(e))).d ==
        if submission.Some? && e.verdict.Some? then
          t.d.(state := Implementing, pausedFrom := None, plan := e.verdict, journal := asked + [PlanAccepted])
        else if Rejections(t.d.journal) + 1 < 3 then t.d.(journal := asked + [PlanRejected])
        else t.d.(state := Failed, pausedFrom := None, journal := asked + [PlanRejected, RecoveryNote])
  {
    hide HasAcceptedPlan, Rejections, UnprocessedSubmission, PlanningRound, ApplyAll;
    var stored := UnprocessedSubmission(t.d.journal);
    var ask := if stored == None then [Append(ModelCall(PlanTurn)), Append(PlanAnswered(e.submission))] else [];
    RoundShape(t, e);
    var ws := PlanningRound(t, e).writes;
    var closing := ws[|ask|..];
    assert ws == ask + closing;
    assert Step(t, Run(Drive(e))).d == ApplyAll(t.d, ask + closing);
    ApplyConcat(t.d, ask, closing);
    var asked := ApplyAll(t.d, ask);
    AskedForPlan(t.d, e);
    DecisionMade(asked, e);
  }

  lemma {:induction false} AskedForPlan(d: Durable, e: Env)
    ensures ApplyAll(d, []) == d
    ensures ApplyAll(d, [Append(ModelCall(PlanTurn)), Append(PlanAnswered(e.submission))])
            == d.(journal := d.journal + [ModelCall(PlanTurn), PlanAnswered(e.submission)])
  {
    NothingApplied(d);
    ApplyFew(d, Append(ModelCall(PlanTurn)), Append(PlanAnswered(e.submission)), Append(RecoveryNote));
  }

  /** The round asks first, unless a submission is stored, and then writes its decision. */
  lemma {:induction false} RoundShape(t: Task, e: Env)
    requires PlanIsDue(t, e)
    requires UnprocessedSubmission(t.d.journal) == None ==> !e.reply.Unavailable? && !e.reply.Malformed?
    ensures var stored := UnprocessedSubmission(t.d.journal); var ws := PlanningRound(t, e).writes;
      var ask := if stored == None then [Append(ModelCall(PlanTurn)), Append(PlanAnswered(e.submission))] else [];
      var submission := if stored == None then e.submission else stored.value;
      && ask <= ws
      && ws[|ask|..] ==
         if submission.Some? && e.verdict.Some? then [SavePlan(e.verdict.value), Append(PlanAccepted), Goto(Implementing)]
         else if Rejections(t.d.journal) + 1 < 3 then [Append(PlanRejected)]
         else [Append(PlanRejected), FAILING[0], FAILING[1]]
  {
    hide HasAcceptedPlan, Rejections, UnprocessedSubmission;
  }

  lemma {:induction false} DecisionMade(d: Durable, e: Env)
    ensures e.verdict.Some? ==>
      ApplyAll(d, [SavePlan(e.verdict.value), Append(PlanAccepted), Goto(Implementing)])
      == d.(state := Implementing, pausedFrom := None, plan := e.verdict, journal := d.journal + [PlanAccepted])
    ensures ApplyAll(d, [Append(PlanRejected)]) == d.(journal := d.journal + [PlanRejected])
    ensures ApplyAll(d, [Append(PlanRejected), FAILING[0], FAILING[1]])
      == d.(state := Failed, pausedFrom := None, journal := d.journal + [PlanRejected, RecoveryNote])
  {
    hide ApplyAll;
    if e.verdict.Some? {
      ApplyFew(d, SavePlan(e.verdict.value), Append(PlanAccepted), Goto(Implementing));
    }
    ApplyFew(d, Append(PlanRejected), FAILING[0], FAILING[1]);
  }

  /** A task that already has an accepted plan goes on to walk it, and one without attempts left fails. */
  lemma {:induction false} PlanningIsOver(t: Task, e: Env)
    requires t.d.state.Planning? && e.modelAuthored
    ensures HasAcceptedPlan(t.d.journal) ==>
      Step(t, Run(Drive(e))).d == t.d.(state := Implementing, pausedFrom := None)
    ensures !HasAcceptedPlan(t.d.journal) && Rejections(t.d.journal) >= 3 ==>
      Step(t, Run(Drive(e))).d == t.d.(state := Failed, pausedFrom := None, journal := t.d.journal + [RecoveryNote])
  {
    hide HasAcceptedPlan, Rejections, UnprocessedSubmission;
    ApplyFew(t.d, Goto(Implementing), Goto(Implementing), Goto(Implementing));
    ApplyFew(t.d, FAILING[0], FAILING[1], FAILING[1]);
  }

  // ---------------------------------------------------------------- verification

  /** The checks in force, how many of them ran, and whether the last one passed: those remembered, or else
      what a scan finds now, none of which ran. */
  function InForce(vs: VerifyState, e: Env): (seq<Check>, nat, bool) {
    match vs.plan
    case Some(checks) => (checks, vs.executed, vs.lastPassed)
    case None => (e.checks, 0, true)
  }

  /** A check is left to run: nothing ran yet or the last one passed, and not all of them ran. */
  predicate CheckIsDue(vs: VerifyState, e: Env) {
    var (checks, ran, passing) := InForce(vs, e);
    (ran == 0 || passing) && ran < |checks|
  }

  lemma {:induction false} VerifyShape(t: Task, e: Env)
    ensures var vs := Take(t); var (checks, ran, passing) := InForce(vs, e); var eff := VerifyStep(t, e);
      if CheckIsDue(vs, e) then
        match e.run
        case RunnerError => eff.writes == [Append(VerifyIssued(checks[ran])), FAILING[0], FAILING[1]] && eff.mem == Some(vs)
        case Passes =>
          && eff.writes == [Append(VerifyIssued(checks[ran])), World(Ran(checks[ran], true)), Append(VerifyResult(checks[ran], true))]
          && eff.mem == Some(vs.(plan := Some(checks), executed := ran + 1, lastPassed := true, lastFailures := 0,
                                 detector := vs.detector.(failures := [])))
        case Fails(n) =>
          && eff.writes == [Append(VerifyIssued(checks[ran])), World(Ran(checks[ran], false)), Append(VerifyResult(checks[ran], false)),
                            Goto(Diagnosing)]
          && eff.mem == Some(vs.(plan := Some(checks), executed := ran + 1, lastPassed := false, lastFailures := n))
      else if !passing then eff.writes == [Goto(Diagnosing)] && eff.mem == Some(vs)
      else if vs.plan.None? && checks == [] then eff.writes == [Goto(Completed)]
      else eff.writes == [World(Earned(checks)), Goto(Completed)]
  {
    hide ReplayDetector, ReplayLedger;
  }

  /** A driven verification runs the first check that did not run, if one is due; a passing one leaves the task
      where it is, a failing one sends it to Diagnosing and is counted, a runner error fails it. With no check
      due it goes back to Diagnosing if the last one failed, and otherwise completes, recording what it checked
      unless there was nothing to check. */
  lemma {:induction false} VerificationLeads(t: Task, e: Env)
    requires t.d.state.Verifying?
    ensures var vs, t' := Take(t), Step(t, Run(Drive(e))); var (checks, ran, passing) := InForce(vs, e); var s := t'.d.state;
      && (s.Verifying? <==> CheckIsDue(vs, e) && e.run.Passes?)
      && (s.Diagnosing? <==> if CheckIsDue(vs, e) then e.run.Fails? else !passing)
      && (s.Failed? <==> CheckIsDue(vs, e) && e.run.RunnerError?)
      && (s.Completed? <==> !CheckIsDue(vs, e) && passing)
      && t'.d.world == t.d.world + (if CheckIsDue(vs, e) then (if e.run.RunnerError? then [] else [Ran(checks[ran], e.run.Passes?)])
                                    else if passing && !(vs.plan.None? && checks == []) then [Earned(checks)] else [])
      && t'.d.journal == t.d.journal + (if !CheckIsDue(vs, e) then []
                                        else [VerifyIssued(checks[ran]), if e.run.RunnerError? then RecoveryNote
                                                                         else VerifyResult(checks[ran], e.run.Passes?)])
      && (s.Failed? ==> t'.mem == Some(vs))
      && (s.Verifying? ==> t'.mem == Some(vs.(plan := Some(checks), executed := ran + 1, lastPassed := true, lastFailures := 0,
                                              detector := vs.detector.(failures := []))))
      && (s.Diagnosing? ==> t'.mem == Some(if CheckIsDue(vs, e)
                                           then vs.(plan := Some(checks), executed := ran + 1, lastPassed := false,
                                                    lastFailures := e.run.failures)
                                           else vs))
  {
    hide VerifyStep, Take, ApplyAll;
    VerifyShape(t, e);
    var ws := VerifyStep(t, e).writes;
    assert Step(t, Run(Drive(e))) == Task(ApplyAll(t.d, ws), VerifyStep(t, e).mem, VerifyStep(t, e).fed);
    ApplyFew(t.d, ws[0], if |ws| > 1 then ws[1] else ws[0], if |ws| > 2 then ws[2] else ws[0]);
    if |ws| == 4 {
      assert ws == [ws[0], ws[1], ws[2]] + [Goto(Diagnosing)];
      Then(t.d, [ws[0], ws[1], ws[2]], Goto(Diagnosing));
    } else {
      assert ws == if |ws| == 3 then [ws[0], ws[1], ws[2]] else if |ws| == 2 then [ws[0], ws[1]] else [ws[0]];
    }
  }

  // ---------------------------------------------------------------- diagnosis

  /** What one diagnosis sees: how far the checks got, the failures of the last one, and every file touched. */
  function Seen(vs: VerifyState, e: Env): Metric {
    Metric(vs.executed, vs.lastFailures, vs.touched + e.changed)
  }

  /** A diagnosis is journaled with what the loop detectors find and what is decided. It goes on to repairing
      unless it gives up or asks. */
  lemma {:induction false} DiagnosisLeads(t: Task, e: Env)
    requires t.d.state.Diagnosing?
    ensures var vs, t' := Take(t), Step(t, Run(Drive(e))); var s := t'.d.state;
      var finding := Observe(vs.detector, Cycle(e.fingerprint, e.fileState, Seen(vs, e))).1;
      var decision := vs.repair.Decide(e.fingerprint, finding);
      && (s.Repairing? <==> decision.Continue? || decision.EscalateStrategy? || decision.SwitchRole?)
      && (s.WaitingForUser? <==> decision.AskUser?)
      && (s.Failed? <==> decision.GiveUp?)
      && t'.d.world == t.d.world && t'.d.plan == t.d.plan
      && t'.d.journal == t.d.journal + [Diagnosed(e.fingerprint, e.fileState, Seen(vs, e))]
                         + (if finding.Some? then [LoopDetected(finding.value)] else [])
                         + [Decided(decision)] + (if s.Repairing? then [] else [RecoveryNote])
  {
    hide Take, TakeFed, Observe, R.Ledger.Decide, DiagnosisEntries, ApplyAll;
    var vs := Take(t);
    assert DiagnosisCycle(t, e) == Cycle(e.fingerprint, e.fileState, Seen(vs, e));
    var entries, closing := DiagnosisEntries(t, e), DecisionWrites(DiagnosisDecision(t, e));
    assert Step(t, Run(Drive(e))).d == ApplyAll(t.d, entries + closing);
    DiagnosisJournaled(t, e);
    ApplyConcat(t.d, entries, closing);
    assert closing == if |closing| == 2 then [closing[0], closing[1]] else [closing[0]];
    ApplyFew(ApplyAll(t.d, entries), closing[0], closing[|closing| - 1], closing[0]);
  }

  /** It remembers the files, and the diagnosis to repair; an escalation broadens the verification, a switch of
      roles moves the repair to the primary role, and either drops the plan; giving up forgets everything. */
  lemma {:induction false} DiagnosisRemembers(t: Task, e: Env)
    requires t.d.state.Diagnosing?
    ensures var vs, mem := Take(t), Step(t, Run(Drive(e))).mem;
      var (detector, finding) := Observe(vs.detector, Cycle(e.fingerprint, e.fileState, Seen(vs, e)));
      var decision := vs.repair.Decide(e.fingerprint, finding);
      mem == if decision.GiveUp? then None
             else Some(vs.(detector := detector, pending := Some(e.fingerprint), touched := vs.touched + e.changed,
                           repair := vs.repair.(escalated := vs.repair.escalated || decision.EscalateStrategy?,
                                                switchedRole := vs.repair.switchedRole || decision.SwitchRole?),
                           broaden := vs.broaden || decision.EscalateStrategy?,
                           rolePrimary := vs.rolePrimary || decision.SwitchRole?,
                           plan := if decision.EscalateStrategy? || decision.SwitchRole? then None else vs.plan))
  {
    hide Take, TakeFed, Observe, R.Ledger.Decide, DiagnosisEntries, ApplyAll;
    assert DiagnosisCycle(t, e) == Cycle(e.fingerprint, e.fileState, Seen(Take(t), e));
  }

  lemma {:induction false} DiagnosisJournaled(t: Task, e: Env)
    ensures ApplyAll(t.d, DiagnosisEntries(t, e)) ==
      t.d.(journal := t.d.journal + [Diagnosed(e.fingerprint, e.fileState, DiagnosisCycle(t, e).metric)]
                      + (if DiagnosisFinding(t, e).Some? then [LoopDetected(DiagnosisFinding(t, e).value)] else [])
                      + [Decided(DiagnosisDecision(t, e))])
  {
    hide DiagnosisCycle, DiagnosisFinding, DiagnosisDecision;
    var ws := DiagnosisEntries(t, e);
    if |ws| == 3 {
      ApplyFew(t.d, ws[0], ws[1], ws[2]);
      assert ws == [ws[0], ws[1], ws[2]];
    } else {
      ApplyFew(t.d, ws[0], ws[1], ws[1]);
      assert ws == [ws[0], ws[1]];
    }
  }

  // ---------------------------------------------------------------- repair

  /** One repair turn: it goes back to verifying if the model finished or its tool call ran, waits if it asked,
      and fails otherwise. What is recorded as an attempt is a turn with an edit, denied or not, one that
      finished, and a question; only an edit counts as an improvement. */
  lemma {:induction false} RepairLeads(t: Task, e: Env)
    requires t.d.state.Repairing? && !ToolInterrupted(t.d.journal)
    ensures var vs, t' := Take(t), Step(t, Run(Drive(e))); var s := t'.d.state;
      var calls := e.reply.UseTool?; var edits := calls && e.tool.Executed?;
      var recorded := e.reply.Ask? || e.reply.Finish? || edits || (calls && e.tool.Denied?);
      var attempt := R.Attempt(0, if vs.pending.Some? then vs.pending.value else "",
                               if calls then e.edit else if e.reply.Ask? then "model asked a question" else "no edit (model finished)",
                               if calls then R.Improved else R.NoChange);
      && (s.Verifying? <==> e.reply.Finish? || edits)
      && (s.WaitingForUser? <==> e.reply.Ask?)
      && (s.Failed? <==> e.reply.Unavailable? || e.reply.Malformed? || (calls && !e.tool.Executed?))
      && t'.d.world == t.d.world + (if edits then [Edited] else []) && t'.d.plan == t.d.plan
      && t'.d.journal == t.d.journal + [ModelCall(RepairTurn), ContextRetrieved]
                         + (if e.reply.Unavailable? then [] else [ModelAnswered(RepairTurn)])
                         + (if calls then ToolLog(Repairing, e.tool) else if e.reply.Unavailable? || e.reply.Malformed? then [RecoveryNote] else [])
                         + (if recorded then [Attempted(attempt)] else [])
      && (s.WaitingForUser? ==> t'.mem == Some(vs.(repair := vs.repair.Record(attempt))))
      && (s.Verifying? ==> t'.mem == Some(vs.(repair := vs.repair.Record(attempt), plan := None, executed := 0, lastPassed := true,
                                              detector := Observe(vs.detector, AfterRepair(e.fileState)).0)))
  {
    hide Take, TakeFed, Observe, LastTool, RepairOpening, ToolLog, ApplyAll;
    var vs := Take(t);
    var opening, recorded := RepairOpening(e), Append(Attempted(AttemptFor(vs, e)));
    assert Step(t, Run(Drive(e))).d == ApplyAll(t.d, RepairWrites(vs, e));
    OpeningJournaled(t.d, e);
    Then(t.d, opening, recorded);
    assert opening + [recorded] + [] == opening + [recorded];
    if RepairClosing(e) != [] {
      Then(t.d, opening + [recorded], RepairClosing(e)[0]);
    }
  }

  lemma {:induction false} OpeningJournaled(d: Durable, e: Env)
    requires d.state.Repairing?
    ensures var d' := ApplyAll(d, RepairOpening(e)); var fails := e.reply.Unavailable? || e.reply.Malformed?;
      && d'.plan == d.plan
      && d'.world == d.world + (if e.reply.UseTool? && e.tool.Executed? then [Edited] else [])
      && d'.state == (if fails || (e.reply.UseTool? && !e.tool.Executed?) then Failed else Repairing)
      && d'.journal == d.journal + [ModelCall(RepairTurn), ContextRetrieved]
                       + (if e.reply.Unavailable? then [] else [ModelAnswered(RepairTurn)])
                       + (if e.reply.UseTool? then ToolLog(Repairing, e.tool) else if fails then [RecoveryNote] else [])
  {
    hide ToolAndStop, ToolLog, ApplyAll;
    var ask := [Append(ModelCall(RepairTurn)), Append(ContextRetrieved)];
    var answered := ask + [Append(ModelAnswered(RepairTurn))];
    TurnBegins(d, RepairTurn);
    match e.reply
    case Unavailable => ThenFails(d, ask);
    case Malformed => ThenFails(d, answered);
    case UseTool =>
      ApplyConcat(d, answered, ToolAndStop(Repairing, e.tool));
      ToolCallLeads(ApplyAll(d, answered), e.tool);
    case _ =>
  }

  // ---------------------------------------------------------------- the clients

  predicate Over(s: State) {
    s.Completed? || s.Failed? || s.Cancelled?
  }

  /** The transition table by target: from where each state can be reached in one transition. */
  lemma {:induction false} ReachedFrom(s: State, to: State)
    ensures s.CanTransitionTo(to) <==>
      match to
      case Idle => s.Paused?
      case Understanding => s.Idle? || s.Discovery? || s.WaitingForUser? || s.Paused?
      case Discovery => s.Understanding? || s.Paused?
      case Planning => s.Discovery? || s.WaitingForPermission? || s.Paused?
      case Implementing => s.Planning? || s.WaitingForPermission? || s.WaitingForUser? || s.Paused?
      case Verifying => s.Implementing? || s.Repairing? || s.Paused?
      case Diagnosing => s.Verifying? || s.WaitingForUser? || s.Paused?
      case Repairing => s.Diagnosing? || s.WaitingForUser? || s.Paused?
      case WaitingForPermission => s.Planning? || s.Implementing? || s.Paused?
      case WaitingForUser => s.Understanding? || s.Discovery? || s.Implementing? || s.Diagnosing? || s.Repairing? || s.Paused?
      case Completed => s.Verifying?
      case Cancelled => !Over(s)
      case _ => !Over(s) && !s.Paused?
  {
    match to
    case Paused =>
    case Failed =>
    case _ =>
  }

  /** A pause or a cancel reaches any task that is neither over nor paused; a resume takes a paused task back to
      where it was paused, and notes the recovery of one whose driver died, which stays where it was. Each
      changes nothing else. */
  lemma {:induction false} SignalsLead(t: Task)
    ensures var s := t.d.state;
      && Step(t, Run(Pause)).d == (if Over(s) || s.Paused? then t.d else t.d.(state := Paused, pausedFrom := Some(s)))
      && Step(t, Run(Cancel)).d == (if Over(s) || s.Paused? then t.d else t.d.(state := Cancelled, pausedFrom := None))
      && Step(t, Run(Resume)).d ==
           (if s.Paused? then (if t.d.pausedFrom.Some?
                               then t.d.(state := t.d.pausedFrom.value,
                                         pausedFrom := if t.d.pausedFrom.value.Paused? then Some(Paused) else None)
                               else t.d)
            else if Over(s) || s.WaitingForUser? || s.WaitingForPermission? then t.d
            else t.d.(journal := t.d.journal + [RecoveryNote], pausedFrom := None))
  {
    hide ApplyAll;
    ApplyFew(t.d, Goto(Paused), Goto(Paused), Goto(Paused));
    ApplyFew(t.d, Goto(Cancelled), Goto(Cancelled), Goto(Cancelled));
    ApplyFew(t.d, Append(RecoveryNote), Goto(Paused), Goto(t.d.state));
    NothingApplied(t.d);
    if t.d.pausedFrom.Some? {
      var back := Goto(t.d.pausedFrom.value);
      ApplyFew(t.d, back, back, back);
    }
  }

  /** A response of the user is journaled, and implementing goes on. */
  lemma {:induction false} ResponseLeads(t: Task)
    ensures Step(t, Run(Respond)).d ==
      if t.d.state.WaitingForUser? then t.d.(journal := t.d.journal + [UserResponse], state := Implementing, pausedFrom := None)
      else t.d
  {
    hide ApplyAll;
    ApplyFew(t.d, Append(UserResponse), Goto(Implementing), Goto(Implementing));
    NothingApplied(t.d);
  }

  /** A permission that is refused, or whose call is then denied, fails the task; one that is given runs the
      call, and implementing goes on if this process holds no verify state. */
  lemma {:induction false} PermissionLeads(t: Task, approve: bool, r: ToolOutcome)
    ensures var d' := Step(t, Run(Resolve(approve, r))).d;
      if !t.d.state.WaitingForPermission? || !PermissionPending(t.d.journal) then d' == t.d
      else if !approve || r.Denied? then
        d' == t.d.(journal := t.d.journal + [ToolDenied], state := Failed, pausedFrom := None)
      else if !r.Executed? then d' == t.d
      else if t.mem.Some? then d' == t.d.(world := t.d.world + [Edited], journal := t.d.journal + [ToolResult])
      else d' == t.d.(world := t.d.world + [Edited], journal := t.d.journal + [ToolResult], state := Implementing, pausedFrom := None)
  {
    hide LastTool, ApplyAll;
    var ran := [World(Edited), Append(ToolResult)];
    ApplyFew(t.d, Append(ToolDenied), Goto(Failed), Goto(Failed));
    ApplyFew(t.d, ran[0], ran[1], ran[1]);
    Then(t.d, ran, Goto(Implementing));
    assert ran + [] == ran;
    NothingApplied(t.d);
  }

  /** A crash loses everything a process remembers: it goes on from what the journal says, with no verification
      plan, no failure count, no diagnosis to repair and no list of touched files. */
  lemma {:induction false} CrashForgets(t: Task, a: Action, made: nat)
    ensures var t' := Step(t, Crash(a, made)); var vs := Take(t');
      && vs.detector == ReplayDetector(t'.d.journal) && vs.repair == ReplayLedger(t'.d.journal, 4)
      && vs.plan == None && vs.executed == 0 && vs.lastFailures == 0 && vs.pending == None && vs.touched == {}
      && !vs.broaden && !vs.rolePrimary
  {
    hide ApplyAll, Do, ReplayDetector, ReplayLedger;
  }

  /** A task that is over is done with: nothing driven changes it, and its memory is let go. */
  lemma {:induction false} OverIsOver(t: Task, e: Env)
    requires Over(t.d.state)
    ensures Step(t, Run(Drive(e))).d == t.d && Step(t, Run(Drive(e))).mem == None
  {
    NothingApplied(t.d);
  }
}
