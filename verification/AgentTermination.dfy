/** Without crashes and without the user, neither loop of the driver runs forever. */
module AgentTermination {
  import opened Options
  import opened LoopDetect
  import opened Journal
  import opened Agent
  import opened AgentLedger

  /** The task after `n` steps of the driver, each with what the world answers to it. */
  function Driven(t: Task, envs: nat -> Env, n: nat): Task {
    if n == 0 then t else Step(Driven(t, envs, n - 1), Run(Drive(envs(n - 1))))
  }

  lemma {:induction false} DrivenShift(t: Task, envs: nat -> Env, n: nat)
    ensures Driven(Step(t, Run(Drive(envs(0)))), (k: nat) => envs(k + 1), n) == Driven(t, envs, n + 1)
  {
    hide Step;
    if n > 0 {
      DrivenShift(t, envs, n - 1);
    }
  }

  // ---------------------------------------------------------------- verify, diagnose, repair

  predicate InRepairLoop(s: State) {
    s.Verifying? || s.Diagnosing? || s.Repairing?
  }

  /** Rounds left, by how many attempts are recorded, and how far into a round the task is. */
  function RoundsLeft(t: Task): nat {
    var a := |LedgerOf(t.d.journal).attempts|;
    var left := if a < MAX_REPAIR_ATTEMPTS then 3 * (MAX_REPAIR_ATTEMPTS - a) else 0;
    match t.d.state
    case Verifying => left + 2
    case Diagnosing => left + 1
    case _ => if left == 0 then 3 else left
  }

  function ChecksLeft(t: Task): nat {
    var vs := Take(t);
    if vs.plan.Some? && vs.executed <= |vs.plan.value| then |vs.plan.value| - vs.executed else 0
  }

  function Redo(t: Task): nat {
    if ToolInterrupted(t.d.journal) then 1 else 0
  }

  function PlanUnset(t: Task): nat {
    if Take(t).plan.Some? then 0 else 1
  }

  predicate Smaller(t': Task, t: Task) {
    || Redo(t') < Redo(t)
    || (Redo(t') == Redo(t) && RoundsLeft(t') < RoundsLeft(t))
    || (Redo(t') == Redo(t) && RoundsLeft(t') == RoundsLeft(t) && PlanUnset(t') < PlanUnset(t))
    || (Redo(t') == Redo(t) && RoundsLeft(t') == RoundsLeft(t) && PlanUnset(t') == PlanUnset(t) && ChecksLeft(t') < ChecksLeft(t))
  }

  // ---- what a full step does to the ledger and to tool calls

  lemma {:induction false} SameLedger(j: Log, ws: seq<Write>)
    requires Quiet(ws)
    ensures LedgerOf(j + Entries(ws)) == LedgerOf(j)
  {
    ReplayPrefix(j, ws, |ws|, |ws|);
    assert ws[..|ws|] == ws;
  }

  predicate NoToolEntries(ws: seq<Write>) {
    forall w :: w in ws ==> !(w.Append? && IsToolEntry(w.entry))
  }

  lemma {:induction false} SameTool(j: Log, ws: seq<Write>)
    requires NoToolEntries(ws)
    ensures LastTool(j + Entries(ws)) == LastTool(j)
  {
    if ws == [] {
      assert j + Entries(ws) == j;
    } else {
      var before := ws[..|ws| - 1];
      SameTool(j, before);
      assert ws[|ws| - 1] in ws;
      if ws[|ws| - 1].Append? {
        var whole := j + Entries(ws);
        assert whole[..|whole| - 1] == j + Entries(before);
      } else {
        assert Entries(ws) == Entries(before);
      }
    }
  }

  /** After `pre`, the tool entry `e`, and writes without tool entries, `e` is the latest. */
  lemma {:induction false} LastToolIs(j: Log, e: Entry)
    requires IsToolEntry(e)
    ensures LastTool(j + [e]) == Some(e)
  {
    assert (j + [e])[..|j|] == j;
  }

  lemma {:induction false} ToolIs(j: Log, pre: seq<Write>, e: Entry, post: seq<Write>)
    requires IsToolEntry(e) && NoToolEntries(post)
    ensures LastTool(j + Entries(pre + [Append(e)] + post)) == Some(e)
  {
    hide LastTool, Entries;
    EntriesConcat(pre + [Append(e)], post);
    EntriesConcat(pre, [Append(e)]);
    EntriesFew(Append(e), Append(e));
    var upTo := j + Entries(pre) + [e];
    LastToolIs(j + Entries(pre), e);
    SameTool(upTo, post);
    assert j + Entries(pre + [Append(e)] + post) == upTo + Entries(post);
  }

  // ---- verifying

  lemma {:induction false} VerifyMoves(t: Task, e: Env)
    requires t.d.state.Verifying?
    ensures var t' := Step(t, Run(Drive(e)));
      && t'.d.journal == t.d.journal + Entries(VerifyStep(t, e).writes)
      && (if VerifyPassesOn(t, e) then t'.d.state.Verifying? else t'.d.state.Diagnosing? || t'.d.state.Completed? || t'.d.state.Failed?)
  {
    hide ReplayDetector, ReplayLedger, FailureObserved, WithPlan;
    var ws := VerifyStep(t, e).writes;
    assert Step(t, Run(Drive(e))).d == ApplyAll(t.d, ws);
    JournalAfter(t.d, ws);
    if VerifyPassesOn(t, e) {
      StateAfter(t.d, ws, 0);
    } else {
      StateAfter(t.d, ws, |ws|);
    }
  }

  /** A passing check sets the plan, and leaves fewer checks if it was set before. */
  lemma {:induction false} PassingShrinks(t: Task, e: Env)
    requires t.d.state.Verifying? && VerifyPassesOn(t, e)
    ensures var t' := Step(t, Run(Drive(e)));
      && PlanUnset(t') == 0
      && (PlanUnset(t) == 0 ==> ChecksLeft(t') < ChecksLeft(t))
  {
    hide ReplayDetector, ReplayLedger, FailureObserved, ApplyAll;
  }

  lemma {:induction false} VerifyingProgress(t: Task, e: Env)
    requires t.d.state.Verifying?
    ensures var t' := Step(t, Run(Drive(e)));
      && (InRepairLoop(t'.d.state) ==> Smaller(t', t))
      && (!InRepairLoop(t'.d.state) ==> t'.d.state.Completed? || t'.d.state.Failed?)
  {
    hide Step, VerifyStep, VerifyPassesOn, PlanUnset, ChecksLeft, LedgerOf, LastTool;
    var ws := VerifyStep(t, e).writes;
    VerifyMoves(t, e);
    VerifyQuiet(t, e);
    SameLedger(t.d.journal, ws);
    SameTool(t.d.journal, ws);
    if VerifyPassesOn(t, e) {
      PassingShrinks(t, e);
    }
  }

  /** A check runs and passes, so the task stays in Verifying. */
  predicate VerifyPassesOn(t: Task, e: Env) {
    var vs := WithPlan(Take(t), e);
    && !(Take(t).plan == None && e.checks == [])
    && NextAfter(vs.plan.value, vs.executed, vs.lastPassed).Some? && e.run.Passes?
  }

  lemma {:induction false} VerifyQuiet(t: Task, e: Env)
    ensures Quiet(VerifyStep(t, e).writes) && NoToolEntries(VerifyStep(t, e).writes)
  {
    hide VerifyStep;
    VerifyMay(t, e);
    var ws := VerifyStep(t, e).writes;
    forall w | w in ws
      ensures !IsLedgerWrite(w) && !(w.Append? && IsToolEntry(w.entry))
    {
      assert MayWrite(Verifying, w);
    }
  }

  // ---- diagnosing

  lemma {:induction false} DiagnosisMoves(t: Task, e: Env)
    requires t.d.state.Diagnosing?
    ensures var t' := Step(t, Run(Drive(e)));
      && t'.d.journal == t.d.journal + Entries(DiagnoseStep(t, e).writes)
      && Goto(t'.d.state) in DiagnoseStep(t, e).writes
      && (t'.d.state.Repairing? || t'.d.state.Failed? || t'.d.state.WaitingForUser?)
  {
    hide DiagnosisFinding, DiagnosisCycle, Observe, AfterDecision, Take;
    var ws := DiagnoseStep(t, e).writes;
    var last := DecisionWrites(DiagnosisDecision(t, e));
    assert Step(t, Run(Drive(e))).d == ApplyAll(t.d, ws);
    assert ws[|ws| - 1] == last[|last| - 1];
    StateAfter(t.d, ws, |ws|);
    JournalAfter(t.d, ws);
  }

  lemma {:induction false} DiagnosingProgress(t: Task, e: Env)
    requires t.d.state.Diagnosing? && LedgerAgrees(t)
    ensures var t' := Step(t, Run(Drive(e)));
      && (InRepairLoop(t'.d.state) ==> Smaller(t', t))
      && (!InRepairLoop(t'.d.state) ==> t'.d.state.Failed? || t'.d.state.WaitingForUser?)
  {
    hide Step, DiagnoseStep, PlanUnset, ChecksLeft, LedgerOf, LastTool, Attempts;
    var ws := DiagnoseStep(t, e).writes;
    DiagnosisMoves(t, e);
    DiagnosisAttempts(t, e);
    DiagnosisNoTool(t, e);
    SameTool(t.d.journal, ws);
    DiagnosisHasBudget(t, e);
    LedgerCounts(t.d.journal);
  }

  lemma {:induction false} DiagnosisNoTool(t: Task, e: Env)
    ensures NoToolEntries(DiagnoseStep(t, e).writes)
  {
    hide DiagnoseStep;
    DiagnoseMay(t, e);
    forall w | w in DiagnoseStep(t, e).writes
      ensures !(w.Append? && IsToolEntry(w.entry))
    {
      assert MayWrite(Diagnosing, w);
    }
  }

  lemma {:induction false} DiagnosisAttempts(t: Task, e: Env)
    ensures LedgerOf(t.d.journal + Entries(DiagnoseStep(t, e).writes)).attempts == LedgerOf(t.d.journal).attempts
  {
    hide DiagnoseStep;
    var ws := DiagnoseStep(t, e).writes;
    var i := DiagnoseLedger(t, e);
    ReplayPrefix(t.d.journal, ws, i, |ws|);
    assert ws[..|ws|] == ws;
  }

  // ---- repairing

  lemma {:induction false} RepairingProgress(t: Task, e: Env)
    requires t.d.state.Repairing? && LedgerAgrees(t)
    ensures var t' := Step(t, Run(Drive(e)));
      && (InRepairLoop(t'.d.state) ==> Smaller(t', t))
      && (!InRepairLoop(t'.d.state) ==> t'.d.state.Failed? || t'.d.state.WaitingForUser?)
  {
    if ToolInterrupted(t.d.journal) {
      RedoProgress(t, e);
    } else {
      RepairTurnProgress(t, e);
    }
  }

  lemma {:induction false} RedoProgress(t: Task, e: Env)
    requires t.d.state.Repairing? && ToolInterrupted(t.d.journal)
    ensures var t' := Step(t, Run(Drive(e)));
      && (InRepairLoop(t'.d.state) ==> Smaller(t', t))
      && (!InRepairLoop(t'.d.state) ==> t'.d.state.Failed?)
  {
    hide LastTool, LedgerOf, Take, Entries, ApplyAll, RepairWrites, RepairMemory, RepairRecords;
    var ws := RepairStep(t, e).writes;
    var t' := Step(t, Run(Drive(e)));
    assert t'.d == ApplyAll(t.d, ws);
    StateAfter(t.d, ws, |ws|);
    if e.tool.Executed? {
      JournalAfter(t.d, ws);
      ToolIs(t.d.journal, [Append(ToolIssued), World(Edited)], ToolResult, [Goto(Verifying)]);
      assert ws == [Append(ToolIssued), World(Edited)] + [Append(ToolResult)] + [Goto(Verifying)];
    }
  }

  /** The latest tool entry a repair turn leaves, if it leaves any. */
  lemma {:induction false} RepairTool(vs: VerifyState, j: Log, e: Env)
    requires LastTool(j) != Some(ToolIssued) && RepairRecords(e)
    ensures LastTool(j + Entries(RepairWrites(vs, e))) != Some(ToolIssued)
  {
    var attempt := [Append(Attempted(AttemptFor(vs, e)))];
    var ws := RepairWrites(vs, e);
    var answered := [Append(ModelCall(RepairTurn)), Append(ContextRetrieved), Append(ModelAnswered(RepairTurn))];
    if !e.reply.UseTool? {
      assert NoToolEntries(ws);
      SameTool(j, ws);
    } else if e.tool.Executed? {
      var pre := answered + [Append(ToolIssued), World(Edited)];
      assert ws == pre + [Append(ToolResult)] + (attempt + RepairClosing(e));
      ToolIs(j, pre, ToolResult, attempt + RepairClosing(e));
    } else {
      var pre := answered + [Append(ToolIssued)];
      assert ws == pre + [Append(ToolDenied)] + ([Goto(Failed)] + attempt);
      ToolIs(j, pre, ToolDenied, [Goto(Failed)] + attempt);
    }
  }

  lemma {:induction false} RepairMoves(t: Task, e: Env)
    requires t.d.state.Repairing? && !ToolInterrupted(t.d.journal)
    ensures var t' := Step(t, Run(Drive(e)));
      && t'.d.journal == t.d.journal + Entries(RepairWrites(Take(t), e))
      && (t'.d.state.Failed? || (RepairRecords(e) && (t'.d.state.WaitingForUser? || t'.d.state.Verifying?)))
  {
    hide Take, AttemptFor;
    var ws := RepairWrites(Take(t), e);
    assert Step(t, Run(Drive(e))).d == ApplyAll(t.d, ws);
    JournalAfter(t.d, ws);
    if !RepairRecords(e) {
      assert ws[|ws| - 1] == Goto(Failed);
      StateAfter(t.d, ws, |ws|);
    } else if e.reply.UseTool? && e.tool.Denied? {
      assert RepairOpening(e)[5] == Goto(Failed) && |RepairOpening(e)| == 6;
      assert |ws| == 7 && ws[5] == Goto(Failed);
      StateAfter(t.d, ws, 6);
    } else {
      assert ws[|ws| - 1] == RepairClosing(e)[0];
      StateAfter(t.d, ws, |ws|);
    }
  }

  lemma {:induction false} RepairTurnProgress(t: Task, e: Env)
    requires t.d.state.Repairing? && !ToolInterrupted(t.d.journal)
    ensures var t' := Step(t, Run(Drive(e)));
      && (InRepairLoop(t'.d.state) ==> Smaller(t', t))
      && (!InRepairLoop(t'.d.state) ==> t'.d.state.Failed? || t'.d.state.WaitingForUser?)
  {
    hide Step, RepairWrites, RepairRecords, PlanUnset, ChecksLeft, LedgerOf, LastTool, Take;
    RepairMoves(t, e);
    if RepairRecords(e) {
      RepairTool(Take(t), t.d.journal, e);
      RepairAttempts(Take(t), t.d.journal, e);
    }
  }

  lemma {:induction false} RepairAttempts(vs: VerifyState, j: Log, e: Env)
    requires RepairRecords(e)
    ensures |LedgerOf(j + Entries(RepairWrites(vs, e))).attempts| == |LedgerOf(j).attempts| + 1
  {
    hide RepairWrites;
    var ws := RepairWrites(vs, e);
    RepairWritesOnce(vs, e);
    ReplayPrefix(j, ws, RecordedAt(vs, e), |ws|);
    assert ws[..|ws|] == ws;
  }

  lemma {:induction false} LoopProgress(t: Task, e: Env)
    requires InRepairLoop(t.d.state) && LedgerAgrees(t)
    ensures var t' := Step(t, Run(Drive(e)));
      && LedgerAgrees(t')
      && (InRepairLoop(t'.d.state) ==> Smaller(t', t))
      && (!InRepairLoop(t'.d.state) ==> t'.d.state.Completed? || t'.d.state.Failed? || t'.d.state.WaitingForUser?)
  {
    hide VerifyStep, DiagnoseStep, RepairStep, ImplementStep, ImplementPlanStep, PlanningRound, Smaller;
    match t.d.state {
      case Verifying => VerifyingProgress(t, e);
      case Diagnosing => DiagnosingProgress(t, e);
      case Repairing => RepairingProgress(t, e);
    }
    var ws := Do(t, Drive(e)).writes;
    var i := CrashRefinement(t, Drive(e), |ws|);
    assert ws[..|ws|] == ws;
  }

  lemma {:induction false} LoopEnds(t: Task, envs: nat -> Env) returns (n: nat)
    requires InRepairLoop(t.d.state) && LedgerAgrees(t)
    ensures var s := Driven(t, envs, n).d.state; s.Completed? || s.Failed? || s.WaitingForUser?
    decreases Redo(t), RoundsLeft(t), PlanUnset(t), ChecksLeft(t)
  {
    hide Do, DriveStep, Redo, RoundsLeft, PlanUnset, ChecksLeft, LedgerAgrees;
    LoopProgress(t, envs(0));
    var t' := Step(t, Run(Drive(envs(0))));
    if InRepairLoop(t'.d.state) {
      var m := LoopEnds(t', (k: nat) => envs(k + 1));
      DrivenShift(t, envs, m);
      n := m + 1;
    } else {
      assert Driven(t, envs, 0) == t;
      assert Driven(t, envs, 1) == t';
      n := 1;
    }
  }

  /** From every reachable task in the verify, diagnose, repair loop, whatever happened before:
      without a crash and without the user the driver gets to Completed, Failed or waiting for the user
      after finitely many steps, whatever the world answers. */
  lemma {:induction false} RepairLoopTerminates(events: seq<Event>, envs: nat -> Env)
    requires InRepairLoop(After(events).d.state)
    ensures exists n: nat :: var s := Driven(After(events), envs, n).d.state; s.Completed? || s.Failed? || s.WaitingForUser?
  {
    LedgerSurvivesCrashes(events);
    var n := LoopEnds(After(events), envs);
  }
}
