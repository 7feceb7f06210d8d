/** Crash refinement of the repair ledger, and the bounds it keeps over whole runs. */
module AgentLedger {
  import opened Options
  import opened LoopDetect
  import R = Repair
  import opened Journal
  import opened Agent

  /** Entries that change a replayed ledger. */
  predicate IsLedgerEntry(e: Entry) {
    e.Attempted? || e == Decided(R.EscalateStrategy) || e == Decided(R.SwitchRole)
  }

  predicate IsLedgerWrite(w: Write) {
    w.Append? && IsLedgerEntry(w.entry)
  }

  /** `ws` contains no ledger write except possibly at `i`. */
  predicate OnlyAt(ws: seq<Write>, i: nat) {
    && i <= |ws|
    && (i < |ws| ==> IsLedgerWrite(ws[i]))
    && forall k :: 0 <= k < |ws| && k != i ==> !IsLedgerWrite(ws[k])
  }

  function LedgerOf(j: Log): R.Ledger {
    ReplayLedger(j, MAX_REPAIR_ATTEMPTS)
  }

  /** The ledger after the first `k` of the writes. */
  lemma {:induction false} ReplayPrefix(j: Log, ws: seq<Write>, i: nat, k: nat)
    requires OnlyAt(ws, i) && k <= |ws|
    ensures LedgerOf(j + Entries(ws[..k])) ==
            if i < k then ReplayEntry(LedgerOf(j), ws[i].entry) else LedgerOf(j)
  {
    if k == 0 {
      assert j + Entries(ws[..0]) == j;
    } else {
      ReplayPrefix(j, ws, i, k - 1);
      assert ws[..k][..k - 1] == ws[..k - 1];
      if ws[k - 1].Append? {
        var whole := j + Entries(ws[..k]);
        assert whole[..|whole| - 1] == j + Entries(ws[..k - 1]);
      } else {
        assert j + Entries(ws[..k]) == j + Entries(ws[..k - 1]);
      }
    }
  }

  // ---------------------------------------------------------------- each handler makes at most one

  /** The one ledger write of a diagnosis is its decision, and the memory is updated to match. */
  lemma {:induction false} DiagnoseLedger(t: Task, e: Env) returns (i: nat)
    ensures var eff := DiagnoseStep(t, e);
      && OnlyAt(eff.writes, i)
      && (i < |eff.writes| ==> eff.writes[i].entry == Decided(DiagnosisDecision(t, e)))
      && (eff.mem.Some? ==> eff.mem.value.repair == if i < |eff.writes| then ReplayEntry(Take(t).repair, eff.writes[i].entry) else Take(t).repair)
  {
    var ws := DiagnoseStep(t, e).writes;
    var at := if DiagnosisFinding(t, e).Some? then 2 else 1;
    assert ws[at] == Append(Decided(DiagnosisDecision(t, e)));
    i := if IsLedgerWrite(ws[at]) then at else |ws|;
  }

  predicate Quiet(ws: seq<Write>) {
    forall w :: w in ws ==> !IsLedgerWrite(w)
  }

  lemma {:induction false} OnlyOne(pre: seq<Write>, w: Write, post: seq<Write>)
    requires Quiet(pre) && Quiet(post) && IsLedgerWrite(w)
    ensures OnlyAt(pre + [w] + post, |pre|)
  {
    var ws := pre + [w] + post;
    forall k | 0 <= k < |ws| && k != |pre|
      ensures !IsLedgerWrite(ws[k])
    {
      assert ws[k] == (if k < |pre| then pre[k] else post[k - |pre| - 1]);
    }
  }

  lemma {:induction false} NoneAtAll(ws: seq<Write>)
    requires Quiet(ws)
    ensures OnlyAt(ws, |ws|)
  {
    forall k | 0 <= k < |ws|
      ensures !IsLedgerWrite(ws[k])
    {
      assert ws[k] in ws;
    }
  }

  lemma {:induction false} OpeningQuiet(e: Env)
    ensures Quiet(RepairOpening(e)) && Quiet(RepairClosing(e))
  {
    assert Quiet(ToolAndStop(Repairing, e.tool));
  }

  /** Where a repair turn records its attempt, if it does. */
  function RecordedAt(vs: VerifyState, e: Env): nat {
    |RepairOpening(e)|
  }

  lemma {:induction false} RepairWritesOnce(vs: VerifyState, e: Env)
    ensures OnlyAt(RepairWrites(vs, e), RecordedAt(vs, e))
    ensures RecordedAt(vs, e) < |RepairWrites(vs, e)| <==> RepairRecords(e)
    ensures RepairRecords(e) ==> RepairWrites(vs, e)[RecordedAt(vs, e)] == Append(Attempted(AttemptFor(vs, e)))
  {
    OpeningQuiet(e);
    if RepairRecords(e) {
      OnlyOne(RepairOpening(e), Append(Attempted(AttemptFor(vs, e))), RepairClosing(e));
    } else {
      NoneAtAll(RepairOpening(e));
    }
  }

  lemma {:induction false} RedoneToolQuiet(e: Env)
    ensures Quiet(ToolAndStop(Repairing, e.tool) + (if e.tool.Executed? then [Goto(Verifying)] else []))
  {
    OpeningQuiet(e);
    assert Quiet(ToolAndStop(Repairing, e.tool));
  }

  /** A repair turn records at most one attempt, in the journal and in memory alike. */
  lemma {:induction false} RepairLedgerWrite(t: Task, e: Env) returns (i: nat)
    ensures var eff := RepairStep(t, e);
      && OnlyAt(eff.writes, i)
      && (i < |eff.writes| ==> eff.writes[i].entry.Attempted? && RepairRecords(e) && !ToolInterrupted(t.d.journal))
      && (eff.mem.Some? ==>
            eff.mem.value.repair == if i < |eff.writes| then ReplayEntry(Take(t).repair, eff.writes[i].entry) else Take(t).repair)
  {
    if ToolInterrupted(t.d.journal) {
      i := |RepairStep(t, e).writes|;
      RedoneToolQuiet(e);
      NoneAtAll(RepairStep(t, e).writes);
    } else {
      var vs := Take(t);
      assert RepairStep(t, e).writes == RepairWrites(vs, e) && RepairStep(t, e).mem == RepairMemory(vs, e);
      i := RecordedAt(vs, e);
      RepairWritesOnce(vs, e);
    }
  }

  lemma {:induction false} QuietState(s: State, ws: seq<Write>)
    requires AllMay(s, ws) && !s.Diagnosing? && !s.Repairing?
    ensures OnlyAt(ws, |ws|)
  {
    forall k | 0 <= k < |ws|
      ensures !IsLedgerWrite(ws[k])
    {
      assert MayWrite(s, ws[k]);
    }
  }

  lemma {:induction false} QuietClient(t: Task, ws: seq<Write>)
    requires forall w :: w in ws ==> ClientMayWrite(t, w)
    ensures OnlyAt(ws, |ws|)
  {
    forall k | 0 <= k < |ws|
      ensures !IsLedgerWrite(ws[k])
    {
      assert ClientMayWrite(t, ws[k]);
    }
  }

  /** Away from diagnosis and repair nothing touches the ledger. */
  lemma {:induction false} QuietElsewhere(t: Task, a: Action)
    requires !a.Drive? || !(t.d.state.Diagnosing? || t.d.state.Repairing?)
    ensures OnlyAt(Do(t, a).writes, |Do(t, a).writes|)
  {
    hide VerifyStep, DiagnoseStep, RepairStep, ImplementStep, ImplementPlanStep, PlanningRound;
    if a.Drive? {
      DriveMay(t, a.env);
      QuietState(t.d.state, DriveStep(t, a.env).writes);
    } else {
      ClientMay(t, a);
      QuietClient(t, Do(t, a).writes);
    }
  }

  lemma {:induction false} MemoryElsewhere(t: Task, a: Action)
    requires !a.Drive? || !(t.d.state.Diagnosing? || t.d.state.Repairing?)
    ensures Do(t, a).mem.Some? ==> Do(t, a).mem.value.repair == Take(t).repair
  {
    if a.Drive? {
      match t.d.state
      case Planning =>
      case Implementing => assert Do(t, a).mem == t.mem;
      case Verifying =>
      case _ =>
    }
  }

  /** What any action does to the ledger: at most one write, after which memory and journal agree. */
  lemma {:induction false} OneLedgerWrite(t: Task, a: Action) returns (i: nat)
    ensures var eff := Do(t, a);
      && OnlyAt(eff.writes, i)
      && (i < |eff.writes| ==> a.Drive? && (t.d.state.Diagnosing? || t.d.state.Repairing?))
      && (eff.mem.Some? ==>
            eff.mem.value.repair == if i < |eff.writes| then ReplayEntry(Take(t).repair, eff.writes[i].entry) else Take(t).repair)
  {
    hide VerifyStep, DiagnoseStep, RepairStep, ImplementStep, ImplementPlanStep, PlanningRound;
    if a.Drive? && t.d.state.Diagnosing? {
      i := DiagnoseLedger(t, a.env);
    } else if a.Drive? && t.d.state.Repairing? {
      i := RepairLedgerWrite(t, a.env);
    } else {
      QuietElsewhere(t, a);
      MemoryElsewhere(t, a);
      i := |Do(t, a).writes|;
    }
  }

  // ---------------------------------------------------------------- memory and journal agree

  /** What the process remembers of the ledger is what a replay of the journal would give. */
  predicate LedgerAgrees(t: Task) {
    t.mem.Some? ==> t.mem.value.repair == LedgerOf(t.d.journal)
  }

  lemma {:induction false} TakesReplay(t: Task)
    requires LedgerAgrees(t)
    ensures Take(t).repair == LedgerOf(t.d.journal)
  {
  }

  /** At every point inside a handler the journal is at most one ledger mutation ahead of the memory
      the handler started with: a replay gives the ledger from before, or that ledger with the one
      mutation just journaled - and at the end it gives exactly the memory the handler leaves. */
  lemma {:induction false} CrashRefinement(t: Task, a: Action, made: nat) returns (i: nat)
    requires LedgerAgrees(t)
    requires made <= |Do(t, a).writes|
    ensures OnlyAt(Do(t, a).writes, i)
    ensures var eff := Do(t, a);
      var replayed := LedgerOf(ApplyAll(t.d, eff.writes[..made]).journal);
      && replayed == (if i < made then ReplayEntry(Take(t).repair, eff.writes[i].entry) else Take(t).repair)
      && (made == |eff.writes| && eff.mem.Some? ==> eff.mem.value.repair == replayed)
  {
    var ws := Do(t, a).writes;
    i := OneLedgerWrite(t, a);
    JournalAfter(t.d, ws[..made]);
    ReplayPrefix(t.d.journal, ws, i, made);
    TakesReplay(t);
    assert ws[..|ws|] == ws;
  }

  /** Over every run, with any number of crashes, the remembered ledger is the replayed one. */
  lemma {:induction false} LedgerSurvivesCrashes(events: seq<Event>)
    ensures LedgerAgrees(After(events))
    ensures Take(After(events)).repair == LedgerOf(After(events).d.journal)
  {
    if events != [] {
      var before, ev := events[..|events| - 1], events[|events| - 1];
      LedgerSurvivesCrashes(before);
      var t := After(before);
      var ws := Do(t, ev.action).writes;
      var i := CrashRefinement(t, ev.action, |ws|);
      assert ws[..|ws|] == ws;
    }
  }

  /** So whatever a process decides next, a process restarted at the same point decides the same. */
  lemma {:induction false} DecisionsSurviveCrashes(events: seq<Event>, fp: Fingerprint, finding: Option<Finding>)
    ensures Take(After(events)).repair.Decide(fp, finding) ==
            Take(After(events).(mem := None)).repair.Decide(fp, finding)
  {
    LedgerSurvivesCrashes(events);
  }

  // ---------------------------------------------------------------- budgets over whole runs

  function Attempts(j: Log): nat {
    Count(j, (e: Entry) => e.Attempted?)
  }

  function Escalations(j: Log): nat {
    Count(j, (e: Entry) => e == Decided(R.EscalateStrategy))
  }

  function Switches(j: Log): nat {
    Count(j, (e: Entry) => e == Decided(R.SwitchRole))
  }

  /** The replayed ledger knows how many attempts there were, and whether the two escalations were
      ever decided. */
  lemma {:induction false} LedgerCounts(j: Log)
    ensures |LedgerOf(j).attempts| == Attempts(j)
    ensures LedgerOf(j).maxAttempts == MAX_REPAIR_ATTEMPTS
    ensures LedgerOf(j).escalated <==> Escalations(j) > 0
    ensures LedgerOf(j).switchedRole <==> Switches(j) > 0
  {
    if j != [] {
      LedgerCounts(j[..|j| - 1]);
    }
  }

  /** The numbering of the attempts is their order. */
  lemma {:induction false} AttemptsAreNumbered(j: Log)
    ensures forall k :: 0 <= k < |LedgerOf(j).attempts| ==> LedgerOf(j).attempts[k].number == k + 1
  {
    if j != [] {
      AttemptsAreNumbered(j[..|j| - 1]);
      var was := LedgerOf(j[..|j| - 1]);
      assert LedgerOf(j) == ReplayEntry(was, j[|j| - 1]);
    }
  }

  /** Escalation happens at most once, and the role switch at most once and only after it. */
  predicate EscalatesInOrder(j: Log) {
    && Escalations(j) <= 1
    && Switches(j) <= 1
    && forall k :: 0 <= k < |j| && j[k] == Decided(R.SwitchRole) ==> Escalations(j[..k]) == 1
  }

  predicate RepairBudget(d: Durable, crashes: nat) {
    && Attempts(d.journal) <= MAX_REPAIR_ATTEMPTS + crashes
    && (Place(d).Repairing? ==> Attempts(d.journal) < MAX_REPAIR_ATTEMPTS + crashes)
    && EscalatesInOrder(d.journal)
  }

  /** Journal entries that are not ledger entries leave all of this alone. */
  lemma {:induction false} SameBudget(j: Log, ws: seq<Write>, i: nat, k: nat)
    requires OnlyAt(ws, i) && k <= |ws| && k <= i
    requires EscalatesInOrder(j)
    ensures var j' := j + Entries(ws[..k]);
      Attempts(j') == Attempts(j) && Escalations(j') == Escalations(j) && Switches(j') == Switches(j) && EscalatesInOrder(j')
  {
    if k == 0 {
      assert j + Entries(ws[..0]) == j;
    } else {
      SameBudget(j, ws, i, k - 1);
      var was := j + Entries(ws[..k - 1]);
      assert ws[..k][..k - 1] == ws[..k - 1];
      if ws[k - 1].Append? {
        assert j + Entries(ws[..k]) == was + [ws[k - 1].entry];
        OneMoreEntry(was, ws[k - 1].entry);
      } else {
        assert j + Entries(ws[..k]) == was;
      }
    }
  }

  lemma {:induction false} OneMoreEntry(j: Log, e: Entry)
    requires EscalatesInOrder(j)
    requires e == Decided(R.EscalateStrategy) ==> Escalations(j) == 0
    requires e == Decided(R.SwitchRole) ==> Escalations(j) == 1 && Switches(j) == 0
    ensures Attempts(j + [e]) == Attempts(j) + (if e.Attempted? then 1 else 0)
    ensures Escalations(j + [e]) == Escalations(j) + (if e == Decided(R.EscalateStrategy) then 1 else 0)
    ensures Switches(j + [e]) == Switches(j) + (if e == Decided(R.SwitchRole) then 1 else 0)
    ensures EscalatesInOrder(j + [e])
  {
    var j' := j + [e];
    assert j'[..|j'| - 1] == j;
    forall k | 0 <= k < |j'| && j'[k] == Decided(R.SwitchRole)
      ensures Escalations(j'[..k]) == 1
    {
      assert j'[..k] == j[..k];
      if k == |j| {
        assert j[..k] == j;
      }
    }
  }

  /** The budget after any prefix of writes with at most one ledger write among them. */
  lemma {:induction false} BudgetPrefix(j: Log, ws: seq<Write>, i: nat, k: nat)
    requires OnlyAt(ws, i) && k <= |ws|
    requires EscalatesInOrder(j)
    requires i < |ws| && ws[i].entry == Decided(R.EscalateStrategy) ==> Escalations(j) == 0
    requires i < |ws| && ws[i].entry == Decided(R.SwitchRole) ==> Escalations(j) == 1 && Switches(j) == 0
    ensures EscalatesInOrder(j + Entries(ws[..k]))
    ensures Attempts(j + Entries(ws[..k])) == Attempts(j) + (if i < k && ws[i].entry.Attempted? then 1 else 0)
    decreases k
  {
    hide Attempts, Escalations, Switches;
    if k <= i {
      SameBudget(j, ws, i, k);
    } else {
      BudgetPrefix(j, ws, i, k - 1);
      var was := j + Entries(ws[..k - 1]);
      assert ws[..k][..k - 1] == ws[..k - 1];
      if ws[k - 1].Append? {
        assert j + Entries(ws[..k]) == was + [ws[k - 1].entry];
        if k - 1 == i {
          SameBudget(j, ws, i, i);
        }
        OneMoreEntry(was, ws[k - 1].entry);
      } else {
        assert j + Entries(ws[..k]) == was;
      }
    }
  }

  /** Where a task can come to be Repairing: only a diagnosis sends it there; a resume brings it back. */
  lemma {:induction false} OnlyDiagnosisSendsToRepairing(t: Task, a: Action)
    ensures Goto(Repairing) in Do(t, a).writes ==> Place(t.d).Repairing? || (a.Drive? && t.d.state.Diagnosing?)
  {
    hide VerifyStep, DiagnoseStep, RepairStep, ImplementStep, ImplementPlanStep, PlanningRound;
    if a.Drive? {
      DriveMay(t, a.env);
    } else {
      ClientMay(t, a);
    }
  }

  lemma {:induction false} DiagnosisHasBudget(t: Task, e: Env)
    requires LedgerAgrees(t) && t.d.state.Diagnosing?
    ensures Goto(Repairing) in DiagnoseStep(t, e).writes ==> Attempts(t.d.journal) < MAX_REPAIR_ATTEMPTS
  {
    hide DiagnosisFinding, DiagnosisCycle, AfterDecision, Observe, R.CountAttempts;
    LedgerCounts(t.d.journal);
    assert forall w :: w in DiagnosisEntries(t, e) ==> !w.Goto?;
    if DiagnosisDecision(t, e).GiveUp? {
      assert Goto(Repairing) !in DecisionWrites(R.GiveUp);
    }
  }

  /** A repair turn that recorded its attempt has left Repairing when it ends. */
  lemma {:induction false} RepairTurnLeaves(t: Task, e: Env)
    requires t.d.state.Repairing? && RepairRecords(e) && !ToolInterrupted(t.d.journal)
    ensures !Place(ApplyAll(t.d, RepairStep(t, e).writes)).Repairing?
  {
    var ws := RepairWrites(Take(t), e);
    if e.reply.UseTool? && e.tool.Denied? {
      assert RepairOpening(e)[5] == Goto(Failed) && |RepairOpening(e)| == 6;
      assert |ws| == 7 && ws[5] == Goto(Failed);
      StateAfter(t.d, ws, 6);
    } else {
      assert ws[|ws| - 1] == RepairClosing(e)[0];
      StateAfter(t.d, ws, |ws|);
    }
  }

  /** A decision escalates only if the journal holds no such decision yet. */
  lemma {:induction false} DecisionAllowed(t: Task, e: Env)
    requires LedgerAgrees(t)
    ensures DiagnosisDecision(t, e).EscalateStrategy? ==> Escalations(t.d.journal) == 0
    ensures DiagnosisDecision(t, e).SwitchRole? ==> Escalations(t.d.journal) > 0 && Switches(t.d.journal) == 0
  {
    LedgerCounts(t.d.journal);
  }

  /** The one ledger entry of an action, if it has one, is allowed by what the journal already holds. */
  predicate AllowedEntry(t: Task, a: Action, w: Write) {
    && (w == Append(Decided(R.EscalateStrategy)) ==> Escalations(t.d.journal) == 0)
    && (w == Append(Decided(R.SwitchRole)) ==> Escalations(t.d.journal) > 0 && Switches(t.d.journal) == 0)
    && (w.Append? && w.entry.Attempted? ==>
          a.Drive? && t.d.state.Repairing? && RepairRecords(a.env) && !ToolInterrupted(t.d.journal))
  }

  lemma {:induction false} LedgerEntryAllowed(t: Task, a: Action) returns (i: nat)
    requires LedgerAgrees(t)
    ensures OnlyAt(Do(t, a).writes, i)
    ensures i < |Do(t, a).writes| ==> AllowedEntry(t, a, Do(t, a).writes[i])
  {
    hide VerifyStep, DiagnoseStep, RepairStep, ImplementStep, ImplementPlanStep, PlanningRound;
    hide DiagnosisDecision, Escalations, Switches, RepairRecords;
    if a.Drive? && t.d.state.Diagnosing? {
      i := DiagnoseLedger(t, a.env);
      DecisionAllowed(t, a.env);
      assert Do(t, a) == DiagnoseStep(t, a.env);
    } else if a.Drive? && t.d.state.Repairing? {
      i := RepairLedgerWrite(t, a.env);
      assert Do(t, a) == RepairStep(t, a.env);
    } else {
      QuietElsewhere(t, a);
      i := |Do(t, a).writes|;
    }
  }

  /** What the writes of an event add to the counts. */
  lemma {:induction false} EventCounts(t: Task, ev: Event) returns (recorded: bool)
    requires LedgerAgrees(t) && EscalatesInOrder(t.d.journal)
    ensures EscalatesInOrder(Step(t, ev).d.journal)
    ensures Attempts(Step(t, ev).d.journal) == Attempts(t.d.journal) + (if recorded then 1 else 0)
    ensures recorded ==> ev.action.Drive? && t.d.state.Repairing? && RepairRecords(ev.action.env) && !ToolInterrupted(t.d.journal)
  {
    hide VerifyStep, DiagnoseStep, RepairStep, ImplementStep, ImplementPlanStep, PlanningRound;
    var j, ws, made := t.d.journal, Do(t, ev.action).writes, Made(t, ev);
    var k := |made|;
    assert made == ws[..k];
    var i := LedgerEntryAllowed(t, ev.action);
    JournalAfter(t.d, made);
    if i < |ws| {
      assert AllowedEntry(t, ev.action, ws[i]);
      assert ws[i] == Append(ws[i].entry);
    }
    BudgetPrefix(j, ws, i, k);
    recorded := i < k && ws[i].entry.Attempted?;
  }

  lemma {:induction false} EventKeepsBudget(t: Task, ev: Event, crashes: nat)
    requires LedgerAgrees(t) && RepairBudget(t.d, crashes)
    ensures RepairBudget(Step(t, ev).d, crashes + if ev.Crash? then 1 else 0)
  {
    hide VerifyStep, DiagnoseStep, RepairStep, ImplementStep, ImplementPlanStep, PlanningRound;
    var recorded := EventCounts(t, ev);
    if recorded && ev.Run? {
      RepairTurnLeaves(t, ev.action.env);
      assert Step(t, ev).d == ApplyAll(t.d, RepairStep(t, ev.action.env).writes);
    } else {
      StaysOutOfRepairing(t, ev);
    }
  }

  lemma {:induction false} StaysOutOfRepairing(t: Task, ev: Event)
    requires LedgerAgrees(t)
    ensures Place(Step(t, ev).d).Repairing? && !Place(t.d).Repairing? ==> Attempts(t.d.journal) < MAX_REPAIR_ATTEMPTS
  {
    hide VerifyStep, DiagnoseStep, RepairStep, ImplementStep, ImplementPlanStep, PlanningRound;
    var ws := Do(t, ev.action).writes;
    PlaceAfter(t.d, Made(t, ev));
    OnlyDiagnosisSendsToRepairing(t, ev.action);
    if Goto(Repairing) in ws && ev.action.Drive? && t.d.state.Diagnosing? {
      DiagnosisHasBudget(t, ev.action.env);
    }
  }

  /** Over every run: at most four repair attempts, plus one for each crash, so at most four without a
      crash whatever the user answers; and however often it crashes, at most one strategy escalation,
      and at most one role switch, which comes after it. */
  lemma {:induction false} RepairBudgetHolds(events: seq<Event>)
    ensures RepairBudget(After(events).d, Crashes(events))
  {
    if events == [] {
      assert Attempts([]) == 0;
    } else {
      var before := events[..|events| - 1];
      RepairBudgetHolds(before);
      LedgerSurvivesCrashes(before);
      EventKeepsBudget(After(before), events[|events| - 1], Crashes(before));
    }
  }
}
