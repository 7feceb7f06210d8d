/** The agent's step machine as a write-ahead protocol.

    Each handler of the driver is a function from the task, and what the outside world does, to the
    durable writes it makes in order and the process memory it leaves behind. A handler that runs to
    its end makes all its writes; a crash in it makes some prefix of them and loses the memory. A run
    is any sequence of such events. */
module Agent {
  import opened Options
  import opened LoopDetect
  import R = Repair
  import opened Journal
  import opened Plans

  const MAX_REPAIR_ATTEMPTS: nat := 4
  const MAX_PLAN_REPAIR_ATTEMPTS: nat := 3
  const MAX_STEP_TURNS: nat := 3

  // ---------------------------------------------------------------- task states

  datatype State =
    | Idle | Understanding | Discovery | Planning | Implementing
    | Verifying | Diagnosing | Repairing
    | WaitingForPermission | WaitingForUser | Paused
    | Completed | Failed | Cancelled
  {
    predicate Terminal() {
      Completed? || Failed? || Cancelled?
    }

    /** At rest: no driver is expected to be working on the task. */
    predicate Stable() {
      Terminal() || Paused? || WaitingForPermission? || WaitingForUser?
    }

    predicate DomainEdge(to: State) {
      match this
      case Idle => to.Understanding?
      case Understanding => to.Discovery? || to.WaitingForUser?
      case Discovery => to.Planning? || to.Understanding? || to.WaitingForUser?
      case Planning => to.Implementing? || to.WaitingForPermission?
      case Implementing => to.Verifying? || to.WaitingForPermission? || to.WaitingForUser?
      case Verifying => to.Completed? || to.Diagnosing?
      case Diagnosing => to.Repairing? || to.WaitingForUser? || to.Failed?
      case Repairing => to.Verifying? || to.WaitingForUser?
      case WaitingForPermission => to.Implementing? || to.Planning? || to.Failed?
      case WaitingForUser => to.Understanding? || to.Implementing? || to.Diagnosing? || to.Repairing?
      case Paused => !to.Terminal() && !to.Paused?
      case _ => false
    }

    predicate CanTransitionTo(to: State) {
      && !Terminal()
      && (|| DomainEdge(to)
          || (to != this && (to.Paused? || to.Cancelled? || (to.Failed? && !this.Paused?))))
    }
  }

  // ---------------------------------------------------------------- durable state

  /** What happens to the workspace: a tool ran, a check ran, or a fully passed plan was written to
      repository memory as commands that work here. */
  datatype WorldEvent =
    | Edited
    | Ran(check: Check, passed: bool)
    | Earned(checks: seq<Check>)

  datatype Write =
    | Append(entry: Entry)
    | Goto(state: State)
    | SavePlan(plan: Plan)
    | World(event: WorldEvent)

  datatype Durable = Durable(journal: Log, state: State, pausedFrom: Option<State>, plan: Option<Plan>,
                             world: seq<WorldEvent>)

  function Apply(d: Durable, w: Write): Durable {
    match w
    case Append(e) => d.(journal := d.journal + [e])
    case Goto(s) => d.(state := s, pausedFrom := if s.Paused? then Some(d.state) else None)
    case SavePlan(p) => d.(plan := Some(p))
    case World(ev) => d.(world := d.world + [ev])
  }

  function ApplyAll(d: Durable, ws: seq<Write>): Durable {
    if ws == [] then d else Apply(ApplyAll(d, ws[..|ws| - 1]), ws[|ws| - 1])
  }

  // ---------------------------------------------------------------- process memory

  datatype VerifyState = VerifyState(detector: Detector, repair: R.Ledger,
                                     plan: Option<seq<Check>>, executed: nat, lastPassed: bool,
                                     lastFailures: nat, pending: Option<Fingerprint>,
                                     broaden: bool, rolePrimary: bool, touched: set<Path>)

  /** A task: what is durable, and what this process remembers of it. `fed` is a history variable:
      every observation the remembered detector was given, from its creation on. */
  datatype Task = Task(d: Durable, mem: Option<VerifyState>, fed: seq<Observation>)

  const NEW_TASK := Task(Durable([], Idle, None, None, []), None, [])

  /** The memory a handler works on: the remembered one, or one rebuilt from the journal. */
  function Take(t: Task): VerifyState {
    if t.mem.Some? then t.mem.value
    else VerifyState(ReplayDetector(t.d.journal), ReplayLedger(t.d.journal, MAX_REPAIR_ATTEMPTS),
                     None, 0, false, 0, None, false, false, {})
  }

  function TakeFed(t: Task): seq<Observation> {
    if t.mem.Some? then t.fed else Observations(t.d.journal)
  }

  // ---------------------------------------------------------------- what the outside world does

  datatype Reply = Unavailable | Malformed | UseTool | Finish | Ask
  datatype ToolOutcome = Executed | AskRequired | Denied | UnknownTool
  datatype CheckRun = Passes | Fails(failures: nat) | RunnerError

  /** Everything a step of the driver may learn from outside; each handler reads the part it needs. */
  datatype Env = Env(
    modelAuthored: bool,               // planning mode of the driver
    submission: Option<string>,        // the plan the model submits, if it submits one
    verdict: Option<Plan>,             // what validation makes of a submission
    stillValid: bool,                  // whether the stored plan still validates
    childrenOk: set<StepId>,           // parallel steps whose child task completes cleanly
    reply: Reply,                      // the model's answer to a turn
    tool: ToolOutcome,                 // what becomes of a tool call
    outOfScope: bool,                  // whether the tool call leaves the plan's scope
    checks: seq<Check>,                // the verification plan a scan would build
    run: CheckRun,                     // the outcome of the next check
    fingerprint: Fingerprint,          // the diagnosis of the latest failures
    changed: set<Path>,                // files changed so far, as the change ledger knows them
    fileState: Hash,                   // hash over their content
    edit: string)                      // summary of a repair edit

  datatype Action =
    | Drive(env: Env)
    | Pause
    | Cancel
    | Resume
    | Respond
    | Resolve(approve: bool, tool: ToolOutcome)

  datatype Effect = Effect(writes: seq<Write>, mem: Option<VerifyState>, fed: seq<Observation>)

  /** A handler that returns an error: the application notes it and fails the task. */
  const FAILING: seq<Write> := [Append(RecoveryNote), Goto(Failed)]

  // ---------------------------------------------------------------- tool calls

  /** Whether a tool call leaves the handler running (as opposed to returning an error). */
  predicate ToolReturns(s: State, r: ToolOutcome) {
    match r
    case AskRequired => s.CanTransitionTo(WaitingForPermission)
    case UnknownTool => false
    case _ => true
  }

  function ToolWrites(s: State, r: ToolOutcome): seq<Write> {
    match r
    case Executed => [Append(ToolIssued), World(Edited), Append(ToolResult)]
    case AskRequired =>
      [Append(ToolIssued), Append(PermissionAsk)]
      + (if s.CanTransitionTo(WaitingForPermission) then [Goto(WaitingForPermission)] else [])
    case Denied => [Append(ToolIssued), Append(ToolDenied), Goto(Failed)]
    case UnknownTool => [Append(ToolIssued)]
  }

  /** A tool call as the last act of a handler. */
  function ToolAndStop(s: State, r: ToolOutcome): seq<Write> {
    ToolWrites(s, r) + (if ToolReturns(s, r) then [] else FAILING)
  }

  // ---------------------------------------------------------------- planning

  function SubmittedPlan(submission: Option<string>, e: Env): Option<Plan> {
    if submission == None then None else e.verdict
  }

  /** One round of planning: obtain a submission - the stored one if it was never decided - and
      decide it. */
  function PlanningRound(t: Task, e: Env): Effect {
    var j := t.d.journal;
    var stored := UnprocessedSubmission(j);
    if HasAcceptedPlan(j) then Effect([Goto(Implementing)], t.mem, t.fed)
    else if Rejections(j) >= MAX_PLAN_REPAIR_ATTEMPTS then Effect(FAILING, t.mem, t.fed)
    else if stored == None && (e.reply.Unavailable? || e.reply.Malformed?) then
      Effect([Append(ModelCall(PlanTurn))] + FAILING, t.mem, t.fed)
    else
      var ask := if stored == None then [Append(ModelCall(PlanTurn)), Append(PlanAnswered(e.submission))] else [];
      var submission := if stored == None then e.submission else stored.value;
      match SubmittedPlan(submission, e)
      case Some(p) => Effect(ask + [SavePlan(p), Append(PlanAccepted), Goto(Implementing)], t.mem, t.fed)
      case None =>
        Effect(ask + [Append(PlanRejected)]
               + (if Rejections(j) + 1 >= MAX_PLAN_REPAIR_ATTEMPTS then FAILING else []), t.mem, t.fed)
  }

  // ---------------------------------------------------------------- implementing

  /** One model turn outside any plan, and what its answer leads to. */
  function TurnWrites(s: State, e: Env): seq<Write> {
    var ask := [Append(ModelCall(ImplementTurn)), Append(ContextRetrieved)];
    var answered := ask + [Append(ModelAnswered(ImplementTurn))];
    match e.reply
    case Unavailable => ask + FAILING
    case Malformed => answered + FAILING
    case Finish => answered + [Goto(Verifying)]
    case Ask => answered + [Goto(WaitingForUser)]
    case UseTool => answered + ToolAndStop(s, e.tool)
  }

  function ImplementStep(t: Task, e: Env): Effect {
    Effect(if ToolInterrupted(t.d.journal) then ToolAndStop(t.d.state, e.tool) else TurnWrites(t.d.state, e), t.mem, t.fed)
  }

  /** The entries that open a plan step, each made once. */
  function OpenStep(j: Log, p: Plan, s: StepId): seq<Write> {
    (if s in p.checkpoints && !HasCheckpoint(j, s) then [Append(Checkpoint(s))] else [])
    + (if !IsStarted(j, s) then [Append(StepStarted(s))] else [])
  }

  function ActOn(st: State, s: StepId, action: StepAction, e: Env): seq<Write> {
    match action
    case StepTool => (if e.outOfScope then [Append(ScopeExpansion)] else []) + ToolAndStop(st, e.tool)
    case StepFinish => [Append(StepCompleted(s))]
    case StepAsk => [Goto(WaitingForUser)]
  }

  function ActionOf(r: Reply): StepAction
    requires !r.Unavailable? && !r.Malformed?
  {
    match r
    case UseTool => StepTool
    case Finish => StepFinish
    case _ => StepAsk
  }

  function SoloStep(t: Task, e: Env, p: Plan, s: StepId): seq<Write> {
    var j := t.d.journal;
    var open := OpenStep(j, p, s);
    if TurnsSinceStart(j, s) >= MAX_STEP_TURNS then open + [Append(StepCompleted(s))]
    else match UnprocessedAction(j, s)
         case Some(action) => open + ActOn(t.d.state, s, action, e)
         case None =>
           if e.reply.Unavailable? || e.reply.Malformed? then open + [Append(ModelCall(StepTurn(s)))] + FAILING
           else
             var action := ActionOf(e.reply);
             open + [Append(ModelCall(StepTurn(s))), Append(StepAnswered(s, action))] + ActOn(t.d.state, s, action, e)
  }

  /** Fold the finished children of one chunk back into the journal, up to the first that failed. */
  function FoldChildren(j: Log, p: Plan, chunk: seq<StepId>, ok: set<StepId>): seq<Write> {
    if chunk == [] then []
    else if chunk[0] !in ok then FAILING
    else OpenStep(j, p, chunk[0]) + [Append(StepCompleted(chunk[0]))] + FoldChildren(j, p, chunk[1..], ok)
  }

  /** Run the chunks one after the other; the children of a chunk all edit before any is folded back. */
  function WaveWrites(j: Log, p: Plan, chunks: seq<seq<StepId>>, ok: set<StepId>): seq<Write> {
    if chunks == [] then []
    else
      seq(|chunks[0]|, _ => World(Edited)) + FoldChildren(j, p, chunks[0], ok)
      + (if forall s :: s in chunks[0] ==> s in ok then WaveWrites(j, p, chunks[1..], ok) else [])
  }

  function Incomplete(p: Plan, j: Log, s: StepId): seq<StepId> {
    Drop(p.GroupFor(s), CompletedSteps(j))
  }

  function ImplementPlanStep(t: Task, e: Env, p: Plan): Effect {
    var j := t.d.journal;
    if ToolInterrupted(j) then Effect(ToolAndStop(t.d.state, e.tool), t.mem, t.fed)
    else if !e.stillValid then Effect(FAILING, t.mem, t.fed)
    else match p.NextIncomplete(CompletedSteps(j))
         case None => Effect([Goto(Verifying)], t.mem, t.fed)
         case Some(s) =>
           var rest := Incomplete(p, j, s);
           if |rest| > 1 then
             Effect(WaveWrites(j, p, AllChunks(Batched(p, rest)), e.childrenOk), t.mem, t.fed)
           else Effect(SoloStep(t, e, p, s), t.mem, t.fed)
  }

  // ---------------------------------------------------------------- verify, diagnose, repair

  /** The next check given how many ran and whether the last one passed. */
  function NextAfter(checks: seq<Check>, executed: nat, lastPassed: bool): Option<Check> {
    if executed > 0 && !lastPassed then None
    else if executed < |checks| then Some(checks[executed])
    else None
  }

  function WithPlan(vs: VerifyState, e: Env): VerifyState {
    if vs.plan == None then vs.(plan := Some(e.checks), executed := 0, lastPassed := true) else vs
  }

  function VerifyStep(t: Task, e: Env): Effect {
    var vs, fed := Take(t), TakeFed(t);
    if vs.plan == None && e.checks == [] then Effect([Goto(Completed)], Some(vs), fed)
    else
      var vs1 := WithPlan(vs, e);
      match NextAfter(vs1.plan.value, vs1.executed, vs1.lastPassed)
      case None =>
        if !vs1.lastPassed then Effect([Goto(Diagnosing)], Some(vs1), fed)
        else Effect([World(Earned(vs1.plan.value)), Goto(Completed)], Some(vs1), fed)
      case Some(check) =>
        var ran := vs1.(executed := vs1.executed + 1);
        match e.run
        case RunnerError => Effect([Append(VerifyIssued(check))] + FAILING, Some(vs), fed)
        case Passes =>
          Effect([Append(VerifyIssued(check)), World(Ran(check, true)), Append(VerifyResult(check, true))],
                 Some(ran.(lastPassed := true, lastFailures := 0, detector := FailureObserved(vs1.detector, None).0)),
                 fed + [Passed])
        case Fails(n) =>
          Effect([Append(VerifyIssued(check)), World(Ran(check, false)), Append(VerifyResult(check, false)),
                  Goto(Diagnosing)],
                 Some(ran.(lastPassed := false, lastFailures := n)), fed)
  }

  /** What the decision changes in memory. */
  function AfterDecision(vs: VerifyState, decision: R.Decision): VerifyState {
    match decision
    case EscalateStrategy => vs.(repair := vs.repair.(escalated := true), broaden := true, plan := None)
    case SwitchRole => vs.(repair := vs.repair.(switchedRole := true), rolePrimary := true, plan := None)
    case _ => vs
  }

  function DecisionWrites(decision: R.Decision): seq<Write> {
    match decision
    case AskUser => [Append(RecoveryNote), Goto(WaitingForUser)]
    case GiveUp => [Append(RecoveryNote), Goto(Failed)]
    case _ => [Goto(Repairing)]
  }

  /** The memory a diagnosis works on, and the observation it feeds the detector. */
  function DiagnosisState(t: Task, e: Env): VerifyState {
    Take(t).(touched := Take(t).touched + e.changed, pending := Some(e.fingerprint))
  }

  function DiagnosisCycle(t: Task, e: Env): Observation {
    var vs := DiagnosisState(t, e);
    Cycle(e.fingerprint, e.fileState, Metric(vs.executed, vs.lastFailures, vs.touched))
  }

  function DiagnosisFinding(t: Task, e: Env): Option<Finding> {
    Observe(Take(t).detector, DiagnosisCycle(t, e)).1
  }

  function DiagnosisDecision(t: Task, e: Env): R.Decision {
    Take(t).repair.Decide(e.fingerprint, DiagnosisFinding(t, e))
  }

  function DiagnosisEntries(t: Task, e: Env): seq<Write> {
    var finding := DiagnosisFinding(t, e);
    [Append(Diagnosed(e.fingerprint, e.fileState, DiagnosisCycle(t, e).metric))]
    + (if finding.Some? then [Append(LoopDetected(finding.value))] else [])
    + [Append(Decided(DiagnosisDecision(t, e)))]
  }

  function DiagnoseStep(t: Task, e: Env): Effect {
    var observed := DiagnosisState(t, e).(detector := Observe(Take(t).detector, DiagnosisCycle(t, e)).0);
    var decision := DiagnosisDecision(t, e);
    Effect(DiagnosisEntries(t, e) + DecisionWrites(decision),
           if decision.GiveUp? then None else Some(AfterDecision(observed, decision)),
           TakeFed(t) + [DiagnosisCycle(t, e)])
  }

  /** The attempt one repair turn is recorded as. */
  function AttemptFor(vs: VerifyState, e: Env): R.Attempt {
    R.Attempt(0, if vs.pending.Some? then vs.pending.value else "",
              if e.reply.UseTool? then e.edit else if e.reply.Ask? then "model asked a question" else "no edit (model finished)",
              if e.reply.UseTool? then R.Improved else R.NoChange)
  }

  /** The memory after a repair turn that was not a question: verify again from the first check. The
      detector is also given the bare file state, which no journal entry carries. */
  function AfterRepairTurn(vs: VerifyState, e: Env): VerifyState {
    vs.(repair := vs.repair.Record(AttemptFor(vs, e)), plan := None, executed := 0, lastPassed := true,
        detector := Observe(vs.detector, AfterRepair(e.fileState)).0)
  }

  /** Whether a repair turn ends in a recorded attempt (it does not when the handler fails before). */
  predicate RepairRecords(e: Env) {
    match e.reply
    case Ask => true
    case Finish => true
    case UseTool => ToolReturns(Repairing, e.tool)
    case _ => false
  }

  /** The writes of a repair turn up to its recorded attempt. */
  function RepairOpening(e: Env): seq<Write> {
    var ask := [Append(ModelCall(RepairTurn)), Append(ContextRetrieved)];
    var answered := ask + [Append(ModelAnswered(RepairTurn))];
    match e.reply
    case Unavailable => ask + FAILING
    case Malformed => answered + FAILING
    case UseTool => answered + ToolAndStop(Repairing, e.tool)
    case _ => answered
  }

  function RepairClosing(e: Env): seq<Write> {
    if e.reply.Ask? then [Goto(WaitingForUser)]
    else if e.reply.UseTool? && e.tool.Denied? then []
    else [Goto(Verifying)]
  }

  function RepairMemory(vs: VerifyState, e: Env): Option<VerifyState> {
    if !RepairRecords(e) then Some(vs)
    else if e.reply.Ask? then Some(vs.(repair := vs.repair.Record(AttemptFor(vs, e))))
    else if e.reply.UseTool? && e.tool.Denied? then None
    else Some(AfterRepairTurn(vs, e))
  }

  function RepairWrites(vs: VerifyState, e: Env): seq<Write> {
    if RepairRecords(e) then RepairOpening(e) + [Append(Attempted(AttemptFor(vs, e)))] + RepairClosing(e)
    else RepairOpening(e)
  }

  function RepairStep(t: Task, e: Env): Effect {
    if ToolInterrupted(t.d.journal) then
      Effect(ToolAndStop(Repairing, e.tool) + (if e.tool.Executed? then [Goto(Verifying)] else []), t.mem, t.fed)
    else
      Effect(RepairWrites(Take(t), e), RepairMemory(Take(t), e),
             TakeFed(t) + (if RepairRecords(e) && !e.reply.Ask? && !(e.reply.UseTool? && e.tool.Denied?)
                           then [AfterRepair(e.fileState)] else []))
  }

  // ---------------------------------------------------------------- the driver and its clients

  function DriveStep(t: Task, e: Env): Effect {
    match t.d.state
    case Idle => Effect([Goto(Understanding)], t.mem, t.fed)
    case Understanding => Effect([Goto(Discovery)], t.mem, t.fed)
    case Discovery => Effect([Append(ContextRetrieved), Goto(Planning)], t.mem, t.fed)
    case Planning =>
      if e.modelAuthored then PlanningRound(t, e) else Effect([Goto(Implementing)], t.mem, t.fed)
    case Implementing =>
      if t.d.plan.Some? then ImplementPlanStep(t, e, t.d.plan.value) else ImplementStep(t, e)
    case Verifying => VerifyStep(t, e)
    case Diagnosing => DiagnoseStep(t, e)
    case Repairing => RepairStep(t, e)
    case Completed => Effect([], None, t.fed)
    case Failed => Effect([], None, t.fed)
    case Cancelled => Effect([], None, t.fed)
    case _ => Effect([], t.mem, t.fed)
  }

  function ResumeWrites(d: Durable): seq<Write> {
    if !d.state.Stable() then [Append(RecoveryNote), Goto(Paused), Goto(d.state)]
    else if d.state.Paused? && d.pausedFrom.Some? then [Goto(d.pausedFrom.value)]
    else []
  }

  /** The answer to a permission request. An approved call runs, and then the task goes back to
      Verifying if this process holds verify state for it, and to Implementing otherwise - if the
      transition table allows it. */
  function ResolveWrites(t: Task, approve: bool, r: ToolOutcome): seq<Write> {
    if !t.d.state.WaitingForPermission? || !PermissionPending(t.d.journal) then []
    else if !approve then [Append(ToolDenied), Goto(Failed)]
    else match r
         case Executed =>
           var target := if t.mem.Some? then Verifying else Implementing;
           [World(Edited), Append(ToolResult)]
           + (if t.d.state.CanTransitionTo(target) then [Goto(target)] else [])
         case Denied => [Append(ToolDenied), Goto(Failed)]
         case _ => []
  }

  function Do(t: Task, a: Action): Effect {
    match a
    case Drive(e) => DriveStep(t, e)
    case Pause => Effect(if !t.d.state.Paused? && t.d.state.CanTransitionTo(Paused) then [Goto(Paused)] else [], t.mem, t.fed)
    case Cancel => Effect(if !t.d.state.Paused? && t.d.state.CanTransitionTo(Cancelled) then [Goto(Cancelled)] else [], t.mem, t.fed)
    case Resume => Effect(ResumeWrites(t.d), t.mem, t.fed)
    case Respond => Effect(if t.d.state.WaitingForUser? then [Append(UserResponse), Goto(Implementing)] else [], t.mem, t.fed)
    case Resolve(approve, r) => Effect(ResolveWrites(t, approve, r), t.mem, t.fed)
  }

  // ---------------------------------------------------------------- runs

  /** An event: an action that runs to its end, or one cut off by a crash after `made` writes. */
  datatype Event = Run(action: Action) | Crash(action: Action, made: nat)

  function Step(t: Task, ev: Event): Task {
    var eff := Do(t, ev.action);
    match ev
    case Run(_) => Task(ApplyAll(t.d, eff.writes), eff.mem, eff.fed)
    case Crash(_, made) =>
      Task(ApplyAll(t.d, eff.writes[..if made <= |eff.writes| then made else |eff.writes|]), None, [])
  }

  function After(events: seq<Event>): Task {
    if events == [] then NEW_TASK else Step(After(events[..|events| - 1]), events[|events| - 1])
  }

  function Crashes(events: seq<Event>): nat {
    if events == [] then 0
    else Crashes(events[..|events| - 1]) + (if events[|events| - 1].Crash? then 1 else 0)
  }

  /** The writes one event makes. */
  function Made(t: Task, ev: Event): (ws: seq<Write>)
    ensures ws <= Do(t, ev.action).writes
    ensures Step(t, ev).d == ApplyAll(t.d, ws)
  {
    var ws := Do(t, ev.action).writes;
    match ev
    case Run(_) => ws
    case Crash(_, made) => ws[..if made <= |ws| then made else |ws|]
  }

  // ---------------------------------------------------------------- what writes add up to

  function Entries(ws: seq<Write>): Log {
    if ws == [] then []
    else Entries(ws[..|ws| - 1]) + (if ws[|ws| - 1].Append? then [ws[|ws| - 1].entry] else [])
  }

  lemma {:induction false} JournalAfter(d: Durable, ws: seq<Write>)
    ensures ApplyAll(d, ws).journal == d.journal + Entries(ws)
  {
    if ws != [] {
      JournalAfter(d, ws[..|ws| - 1]);
    }
  }

  lemma {:induction false} EntriesConcat(a: seq<Write>, b: seq<Write>)
    ensures Entries(a + b) == Entries(a) + Entries(b)
  {
    if b == [] {
      assert a + b == a;
    } else {
      assert (a + b)[..|a + b| - 1] == a + b[..|b| - 1];
      EntriesConcat(a, b[..|b| - 1]);
    }
  }

  lemma {:induction false} LastState(d: Durable, ws: seq<Write>)
    ensures ApplyAll(d, ws).state == d.state || Goto(ApplyAll(d, ws).state) in ws
  {
    if ws != [] {
      LastState(d, ws[..|ws| - 1]);
    }
  }

  lemma {:induction false} EntriesIn(ws: seq<Write>)
    ensures forall e :: e in Entries(ws) <==> Append(e) in ws
  {
    if ws != [] {
      EntriesIn(ws[..|ws| - 1]);
      var last := ws[|ws| - 1];
      assert ws == ws[..|ws| - 1] + [last];
    }
  }

  /** Writes that append nothing of a kind leave its count alone. */
  lemma {:induction false} CountKept(j: Log, ws: seq<Write>, p: Entry -> bool)
    requires forall w :: w in ws && w.Append? ==> !p(w.entry)
    ensures Count(j + Entries(ws), p) == Count(j, p)
  {
    EntriesIn(ws);
    forall i | 0 <= i < |Entries(ws)|
      ensures !p(Entries(ws)[i])
    {
      assert Entries(ws)[i] in Entries(ws);
      assert Append(Entries(ws)[i]) in ws;
    }
    CountConcat(j, Entries(ws), p);
    CountZero(Entries(ws), p);
  }

  lemma {:induction false} ApplyFew(d: Durable, a: Write, b: Write, c: Write)
    ensures ApplyAll(d, [a]) == Apply(d, a)
    ensures ApplyAll(d, [a, b]) == Apply(Apply(d, a), b)
    ensures ApplyAll(d, [a, b, c]) == Apply(Apply(Apply(d, a), b), c)
  {
    assert [a][..0] == [] && [a, b][..1] == [a] && [a, b, c][..2] == [a, b];
    assert ApplyAll(d, []) == d;
  }

  lemma {:induction false} EntriesFew(a: Write, b: Write)
    ensures Entries([a]) == if a.Append? then [a.entry] else []
    ensures Entries([a, b]) == Entries([a]) + Entries([b])
  {
    assert [a][..0] == [] && [a, b][..1] == [a];
    assert Entries([]) == [];
  }

  lemma {:induction false} ApplyConcat(d: Durable, a: seq<Write>, b: seq<Write>)
    ensures ApplyAll(d, a + b) == ApplyAll(ApplyAll(d, a), b)
  {
    if b == [] {
      assert a + b == a;
    } else {
      assert (a + b)[..|a + b| - 1] == a + b[..|b| - 1];
      ApplyConcat(d, a, b[..|b| - 1]);
    }
  }

  /** The state after some writes is the target of the last transition among them. */
  lemma {:induction false} StateAfter(d: Durable, ws: seq<Write>, i: nat)
    requires i <= |ws|
    requires forall k :: i <= k < |ws| ==> !ws[k].Goto?
    requires i > 0 ==> ws[i - 1].Goto?
    ensures ApplyAll(d, ws).state == if i > 0 then ws[i - 1].state else d.state
  {
    if i < |ws| {
      StateAfter(d, ws[..|ws| - 1], i);
    }
  }

  /** Where the task is, or will be once it is resumed. */
  function Place(d: Durable): State {
    if d.state.Paused? && d.pausedFrom.Some? then d.pausedFrom.value else d.state
  }

  /** The place of a task changes only by a transition to the new place. */
  lemma {:induction false} PlaceAfter(d: Durable, ws: seq<Write>)
    ensures Place(ApplyAll(d, ws)) == Place(d) || Goto(Place(ApplyAll(d, ws))) in ws
  {
    if ws != [] {
      PlaceAfter(d, ws[..|ws| - 1]);
    }
  }

  // ---------------------------------------------------------------- what each state may write

  predicate IsToolWrite(w: Write) {
    match w
    case Append(e) => IsToolEntry(e) || e.RecoveryNote?
    case Goto(s) => s.Failed?
    case World(ev) => ev.Edited?
    case SavePlan(_) => false
  }

  /** The writes a driver step may make in each state. */
  predicate MayWrite(s: State, w: Write) {
    match s
    case Idle => w == Goto(Understanding)
    case Understanding => w == Goto(Discovery)
    case Discovery => w == Append(ContextRetrieved) || w == Goto(Planning)
    case Planning =>
      (match w
       case Append(e) => (e.ModelCall? && e.phase.PlanTurn?) || e.PlanAnswered? || e.PlanAccepted? || e.PlanRejected? || e.RecoveryNote?
       case Goto(to) => to.Implementing? || to.Failed?
       case SavePlan(_) => true
       case World(_) => false)
    case Implementing =>
      || IsToolWrite(w)
      || (match w
          case Append(e) =>
            || (e.ModelCall? && (e.phase.StepTurn? || e.phase.ImplementTurn?))
            || e.ContextRetrieved? || e.ModelAnswered? || e.StepAnswered? || e.StepStarted? || e.StepCompleted?
            || e.Checkpoint? || e.ScopeExpansion?
          case Goto(to) => to.Verifying? || to.WaitingForPermission? || to.WaitingForUser?
          case _ => false)
    case Verifying =>
      (match w
       case Append(e) => e.VerifyIssued? || e.VerifyResult? || e.RecoveryNote?
       case Goto(to) => to.Completed? || to.Diagnosing? || to.Failed?
       case World(ev) => !ev.Edited?
       case SavePlan(_) => false)
    case Diagnosing =>
      (match w
       case Append(e) => e.Diagnosed? || e.LoopDetected? || e.Decided? || e.RecoveryNote?
       case Goto(to) => to.Repairing? || to.WaitingForUser? || to.Failed?
       case _ => false)
    case Repairing =>
      || IsToolWrite(w)
      || (match w
          case Append(e) => (e.ModelCall? && e.phase.RepairTurn?) || e.ContextRetrieved? || e.ModelAnswered? || e.Attempted?
          case Goto(to) => to.Verifying? || to.WaitingForUser?
          case _ => false)
    case _ => false
  }

  predicate AllMay(s: State, ws: seq<Write>) {
    forall w :: w in ws ==> MayWrite(s, w)
  }

  lemma {:induction false} ToolMay(s: State, r: ToolOutcome)
    requires s.Implementing? || s.Repairing?
    ensures AllMay(s, ToolWrites(s, r)) && AllMay(s, ToolAndStop(s, r))
  {
  }

  lemma {:induction false} OpenStepMay(j: Log, p: Plan, s: StepId)
    ensures AllMay(Implementing, OpenStep(j, p, s))
  {
  }

  lemma {:induction false} SoloMay(t: Task, e: Env, p: Plan, s: StepId)
    requires t.d.state.Implementing?
    ensures AllMay(Implementing, SoloStep(t, e, p, s))
  {
    OpenStepMay(t.d.journal, p, s);
    ToolMay(Implementing, e.tool);
  }

  lemma {:induction false} FoldMay(j: Log, p: Plan, chunk: seq<StepId>, ok: set<StepId>)
    ensures AllMay(Implementing, FoldChildren(j, p, chunk, ok))
  {
    if chunk != [] {
      OpenStepMay(j, p, chunk[0]);
      FoldMay(j, p, chunk[1..], ok);
    }
  }

  lemma {:induction false} WaveMay(j: Log, p: Plan, chunks: seq<seq<StepId>>, ok: set<StepId>)
    ensures AllMay(Implementing, WaveWrites(j, p, chunks, ok))
  {
    if chunks != [] {
      FoldMay(j, p, chunks[0], ok);
      WaveMay(j, p, chunks[1..], ok);
    }
  }

  lemma {:induction false} ImplementPlanMay(t: Task, e: Env, p: Plan)
    requires t.d.state.Implementing?
    ensures AllMay(Implementing, ImplementPlanStep(t, e, p).writes)
  {
    var j := t.d.journal;
    ToolMay(Implementing, e.tool);
    match p.NextIncomplete(CompletedSteps(j))
    case None =>
    case Some(s) =>
      SoloMay(t, e, p, s);
      WaveMay(j, p, AllChunks(Batched(p, Incomplete(p, j, s))), e.childrenOk);
  }

  lemma {:induction false} ImplementMay(t: Task, e: Env)
    requires t.d.state.Implementing?
    ensures AllMay(Implementing, ImplementStep(t, e).writes)
  {
    ToolMay(Implementing, e.tool);
  }

  lemma {:induction false} PlanningMay(t: Task, e: Env)
    ensures AllMay(Planning, PlanningRound(t, e).writes)
  {
  }

  lemma {:induction false} VerifyMay(t: Task, e: Env)
    ensures AllMay(Verifying, VerifyStep(t, e).writes)
  {
  }

  lemma {:induction false} DiagnoseMay(t: Task, e: Env)
    ensures AllMay(Diagnosing, DiagnoseStep(t, e).writes)
  {
    hide Observe, Take, TakeFed, DiagnosisFinding, DiagnosisDecision, DiagnosisCycle, AfterDecision;
    assert AllMay(Diagnosing, DiagnosisEntries(t, e));
    assert AllMay(Diagnosing, DecisionWrites(DiagnosisDecision(t, e)));
  }

  lemma {:induction false} RepairMay(t: Task, e: Env)
    ensures AllMay(Repairing, RepairStep(t, e).writes)
  {
    ToolMay(Repairing, e.tool);
    assert AllMay(Repairing, RepairOpening(e));
    assert AllMay(Repairing, RepairWrites(Take(t), e));
  }

  /** No step of the driver writes anything its state may not write. */
  lemma {:induction false} DriveMay(t: Task, e: Env)
    ensures AllMay(t.d.state, DriveStep(t, e).writes)
  {
    match t.d.state
    case Planning => PlanningMay(t, e);
    case Implementing =>
      if t.d.plan.Some? {
        ImplementPlanMay(t, e, t.d.plan.value);
      } else {
        ImplementMay(t, e);
      }
    case Verifying => VerifyMay(t, e);
    case Diagnosing => DiagnoseMay(t, e);
    case Repairing => RepairMay(t, e);
    case _ =>
  }

  /** Away from the repair loop a step of the driver leaves the memory alone, until the task is over. */
  lemma {:induction false} MemoryIsKept(t: Task, e: Env)
    requires !t.d.state.Verifying? && !t.d.state.Diagnosing? && !t.d.state.Repairing?
    ensures DriveStep(t, e).fed == t.fed
    ensures DriveStep(t, e).mem == if t.d.state.Terminal() then None else t.mem
  {
    match t.d.state
    case Planning =>
    case Implementing =>
    case _ =>
  }

  /** The writes a client of the driver may make. */
  predicate ClientMayWrite(t: Task, w: Write) {
    match w
    case Append(e) => e.RecoveryNote? || e.UserResponse? || e.ToolResult? || e.ToolDenied?
    case Goto(s) => s == Place(t.d) || s.Paused? || s.Cancelled? || s.Failed? || s.Implementing?
    case World(ev) => ev.Edited?
    case SavePlan(_) => false
  }

  lemma {:induction false} ClientMay(t: Task, a: Action)
    requires !a.Drive?
    ensures forall w :: w in Do(t, a).writes ==> ClientMayWrite(t, w)
  {
  }
}
