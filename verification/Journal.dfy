/** The durable record of one task: the append-only journal, and the queries the driver answers
    from it. Everything a restart knows, it knows from here. The queries are functions of the journal;
    the methods at the end are the loops that compute them, forwards or from the latest entry back. */
module Journal {
  import opened Options
  import opened LoopDetect
  import R = Repair

  type StepId = string
  type Check = string

  /** A plan step's decided action, stored in the journal so that a restart can replay it. */
  datatype StepAction = StepTool | StepFinish | StepAsk

  datatype Phase =
    | ImplementTurn
    | PlanTurn
    | StepTurn(step: StepId)
    | RepairTurn

  /** `Issued` entries precede an effect, `Completed` entries record its outcome. Payload fields that
      no query reads are left out. */
  datatype Entry =
    | ModelCall(phase: Phase)
    | ContextRetrieved
    | ModelAnswered(phase: Phase)
    | PlanAnswered(submission: Option<string>)
    | StepAnswered(step: StepId, action: StepAction)
    | ToolIssued
    | ToolResult
    | ToolDenied
    | PermissionAsk
    | VerifyIssued(check: Check)
    | VerifyResult(check: Check, passed: bool)
    | Diagnosed(fingerprint: Fingerprint, fileState: Hash, metric: Metric)
    | LoopDetected(finding: Finding)
    | Decided(decision: R.Decision)
    | Attempted(attempt: R.Attempt)
    | UserResponse
    | RecoveryNote
    | PlanAccepted
    | PlanRejected
    | StepStarted(step: StepId)
    | StepCompleted(step: StepId)
    | Checkpoint(step: StepId)
    | ScopeExpansion

  type Log = seq<Entry>

  // ---------------------------------------------------------------- counting

  /** How many entries satisfy `p`. */
  function Count(j: Log, p: Entry -> bool): (n: nat)
    ensures n <= |j|
  {
    if j == [] then 0
    else Count(j[..|j| - 1], p) + (if p(j[|j| - 1]) then 1 else 0)
  }

  lemma {:induction false} CountConcat(a: Log, b: Log, p: Entry -> bool)
    ensures Count(a + b, p) == Count(a, p) + Count(b, p)
  {
    if b == [] {
      assert a + b == a;
    } else {
      assert (a + b)[..|a + b| - 1] == a + b[..|b| - 1];
      CountConcat(a, b[..|b| - 1], p);
    }
  }

  lemma {:induction false} CountZero(j: Log, p: Entry -> bool)
    ensures Count(j, p) == 0 <==> forall i :: 0 <= i < |j| ==> !p(j[i])
  {
    if j != [] {
      CountZero(j[..|j| - 1], p);
    }
  }

  // ---------------------------------------------------------------- tool calls

  predicate IsToolEntry(e: Entry) {
    e.ToolIssued? || e.ToolResult? || e.ToolDenied? || e.PermissionAsk?
  }

  /** The latest entry about a tool call. */
  function LastTool(j: Log): (r: Option<Entry>)
    ensures r.Some? ==> IsToolEntry(r.value)
  {
    if j == [] then None
    else if IsToolEntry(j[|j| - 1]) then Some(j[|j| - 1])
    else LastTool(j[..|j| - 1])
  }

  /** A tool call was issued and never completed: a crash landed in between. */
  predicate ToolInterrupted(j: Log) {
    LastTool(j) == Some(ToolIssued)
  }

  /** A tool call is waiting for a permission decision. */
  predicate PermissionPending(j: Log) {
    LastTool(j) == Some(PermissionAsk)
  }

  // ---------------------------------------------------------------- planning

  predicate HasAcceptedPlan(j: Log) {
    exists i :: 0 <= i < |j| && j[i] == PlanAccepted
  }

  function Rejections(j: Log): nat {
    Count(j, (e: Entry) => e.PlanRejected?)
  }

  /** The latest planning answer, unless an accept or a reject follows it. The answer itself may hold
      no submission. */
  function UnprocessedSubmission(j: Log): Option<Option<string>> {
    if j == [] then None
    else match j[|j| - 1]
         case PlanAnswered(submission) => Some(submission)
         case PlanAccepted => None
         case PlanRejected => None
         case _ => UnprocessedSubmission(j[..|j| - 1])
  }

  // ---------------------------------------------------------------- plan steps

  function CompletedSteps(j: Log): set<StepId> {
    set i | 0 <= i < |j| && j[i].StepCompleted? :: j[i].step
  }

  predicate IsStarted(j: Log, s: StepId) {
    exists i :: 0 <= i < |j| && j[i] == StepStarted(s)
  }

  predicate HasCheckpoint(j: Log, s: StepId) {
    exists i :: 0 <= i < |j| && j[i] == Checkpoint(s)
  }

  /** Model calls for step `s` since its first start entry; none when it was never started. */
  function TurnsSinceStart(j: Log, s: StepId): nat {
    if j == [] then 0
    else TurnsSinceStart(j[..|j| - 1], s)
         + (if j[|j| - 1] == ModelCall(StepTurn(s)) && IsStarted(j[..|j| - 1], s) then 1 else 0)
  }

  /** The stored action of the latest answer for step `s`, unless something acted on it since. */
  function UnprocessedAction(j: Log, s: StepId): Option<StepAction> {
    if j == [] then None
    else match j[|j| - 1]
         case StepAnswered(t, action) => if t == s then Some(action) else UnprocessedAction(j[..|j| - 1], s)
         case ToolIssued => None
         case StepCompleted(_) => None
         case ScopeExpansion => None
         case _ => UnprocessedAction(j[..|j| - 1], s)
  }

  // ---------------------------------------------------------------- replay

  /** One journal entry's effect on the repair ledger. */
  function ReplayEntry(l: R.Ledger, e: Entry): R.Ledger {
    match e
    case Attempted(a) => l.Record(a)
    case Decided(EscalateStrategy) => l.(escalated := true)
    case Decided(SwitchRole) => l.(switchedRole := true)
    case _ => l
  }

  function ReplayLedger(j: Log, maxAttempts: nat): R.Ledger {
    if j == [] then R.NewLedger(maxAttempts)
    else ReplayEntry(ReplayLedger(j[..|j| - 1], maxAttempts), j[|j| - 1])
  }

  /** Every file named by a diagnosis so far. */
  function TouchedFiles(j: Log): set<Path> {
    if j == [] then {}
    else TouchedFiles(j[..|j| - 1]) + (if j[|j| - 1].Diagnosed? then j[|j| - 1].metric.filesTouched else {})
  }

  /** The detector inputs a replay finds in the journal. The replay accumulates the touched files over
      the whole journal, whatever each diagnosis recorded. */
  function Observations(j: Log): seq<Observation> {
    if j == [] then []
    else
      var before := Observations(j[..|j| - 1]);
      match j[|j| - 1]
      case VerifyResult(_, true) => before + [Passed]
      case Diagnosed(fp, fileState, metric) => before + [Cycle(fp, fileState, metric.(filesTouched := TouchedFiles(j)))]
      case _ => before
  }

  function ReplayDetector(j: Log): Detector {
    Feed(NewDetector(DEFAULT_THRESHOLDS), Observations(j))
  }

  // ---------------------------------------------------------------- the loops over the journal

  /** Rebuild detector and ledger by replaying the journal from the start. */
  method ReconstructVerifyState(j: Log, maxAttempts: nat) returns (d: Detector, l: R.Ledger)
    ensures d == ReplayDetector(j) && l == ReplayLedger(j, maxAttempts)
  {
    hide Observe, Feed;
    FeedNothing(NewDetector(DEFAULT_THRESHOLDS));
    var detector := new LoopDetector(NewDetector(DEFAULT_THRESHOLDS));
    var ledger := new R.RepairLedger(R.NewLedger(maxAttempts));
    var touched: set<Path> := {};
    for i := 0 to |j|
      invariant fresh(detector) && fresh(ledger)
      invariant touched == TouchedFiles(j[..i])
      invariant detector.Value() == ReplayDetector(j[..i])
      invariant ledger.Value() == ReplayLedger(j[..i], maxAttempts)
    {
      assert j[..i + 1][..i] == j[..i];
      match j[i]
      case VerifyResult(_, passed) =>
        if passed {
          FeedOne(NewDetector(DEFAULT_THRESHOLDS), Observations(j[..i]), Passed);
          PassedIsFailureNone(detector.Value());
          var _ := detector.ObserveFailure(None);
        }
      case Diagnosed(fp, fileState, metric) =>
        touched := touched + metric.filesTouched;
        var seen := metric.(filesTouched := touched);
        FeedOne(NewDetector(DEFAULT_THRESHOLDS), Observations(j[..i]), Cycle(fp, fileState, seen));
        var _ := ObserveDiagnosis(detector, fp, fileState, seen);
      case Attempted(a) =>
        ledger.Record(a);
      case Decided(decision) =>
        if decision == R.EscalateStrategy {
          ledger.MarkEscalated();
        } else if decision == R.SwitchRole {
          ledger.MarkSwitchedRole();
        }
      case _ =>
    }
    assert j[..|j|] == j;
    d, l := detector.Value(), ledger.Value();
  }

  /** The three chained observations of one diagnosis cycle. */
  method ObserveDiagnosis(detector: LoopDetector, fp: Fingerprint, fileState: Hash, metric: Metric)
    returns (finding: Option<Finding>)
    modifies detector
    ensures (detector.Value(), finding) ==
            Observe(old(detector.Value()), Cycle(fp, fileState, metric))
  {
    finding := detector.ObserveStep(FailureStep(fp, fileState));
    if finding == None {
      finding := detector.ObserveFailure(Some(fp));
    }
    if finding == None {
      finding := detector.ObserveProgress(metric);
    }
  }

  method FindUnprocessedSubmission(j: Log) returns (r: Option<Option<string>>)
    ensures r == UnprocessedSubmission(j)
  {
    var idx := |j|;
    var decidedSince := false;
    assert j[..|j|] == j;
    while idx > 0 && !j[idx - 1].PlanAnswered?
      invariant 0 <= idx <= |j|
      invariant decidedSince <==> exists i :: idx <= i < |j| && (j[i].PlanAccepted? || j[i].PlanRejected?)
      invariant decidedSince ==> UnprocessedSubmission(j) == None
      invariant !decidedSince ==> UnprocessedSubmission(j) == UnprocessedSubmission(j[..idx])
    {
      idx := idx - 1;
      assert j[..idx + 1][..idx] == j[..idx];
      decidedSince := decidedSince || j[idx].PlanAccepted? || j[idx].PlanRejected?;
    }
    r := if idx == 0 || decidedSince then None else Some(j[idx - 1].submission);
  }

  method FindUnprocessedAction(j: Log, s: StepId) returns (r: Option<StepAction>)
    ensures r == UnprocessedAction(j, s)
  {
    var idx := |j|;
    var acted := false;
    assert j[..|j|] == j;
    while idx > 0 && !(j[idx - 1].StepAnswered? && j[idx - 1].step == s)
      invariant 0 <= idx <= |j|
      invariant acted ==> UnprocessedAction(j, s) == None
      invariant !acted ==> UnprocessedAction(j, s) == UnprocessedAction(j[..idx], s)
    {
      idx := idx - 1;
      assert j[..idx + 1][..idx] == j[..idx];
      acted := acted || j[idx].ToolIssued? || j[idx].StepCompleted? || j[idx].ScopeExpansion?;
    }
    r := if idx == 0 || acted then None else Some(j[idx - 1].action);
  }

  method ModelTurnsForStep(j: Log, s: StepId) returns (n: nat)
    ensures n == TurnsSinceStart(j, s)
  {
    n := 0;
    var started := false;
    for i := 0 to |j|
      invariant started <==> IsStarted(j[..i], s)
      invariant n == TurnsSinceStart(j[..i], s)
    {
      assert j[..i + 1][..i] == j[..i];
      if started && j[i] == ModelCall(StepTurn(s)) {
        n := n + 1;
      }
      if j[i] == StepStarted(s) {
        assert j[..i + 1][i] == StepStarted(s);
        started := true;
      } else if started {
        var k :| 0 <= k < i && j[..i][k] == StepStarted(s);
        assert j[..i + 1][k] == StepStarted(s);
      }
    }
    assert j[..|j|] == j;
  }
}
