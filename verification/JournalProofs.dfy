/** What the journal queries mean, entry by entry. */
module JournalProofs {
  import opened Options
  import opened LoopDetect
  import R = Repair
  import opened Journal

  // ---------------------------------------------------------------- counting

  /** The places in the journal whose entries satisfy `p`. */
  ghost function Places(j: Log, p: Entry -> bool): set<nat> {
    set i: nat | i < |j| && p(j[i])
  }

  lemma {:induction false} CountIsSize(j: Log, p: Entry -> bool)
    ensures Count(j, p) == |Places(j, p)|
  {
    if j != [] {
      var before, last := j[..|j| - 1], |j| - 1;
      CountIsSize(before, p);
      assert Places(j, p) == Places(before, p) + if p(j[last]) then {last} else {};
    }
  }

  // ---------------------------------------------------------------- tool calls

  /** Entry `i` is the latest about a tool call. */
  predicate LatestTool(j: Log, i: nat) {
    && i < |j| && (j[i].ToolIssued? || j[i].ToolResult? || j[i].ToolDenied? || j[i].PermissionAsk?)
    && forall k :: i < k < |j| ==> !j[k].ToolIssued? && !j[k].ToolResult? && !j[k].ToolDenied? && !j[k].PermissionAsk?
  }

  lemma {:induction false} LastToolIs(j: Log)
    ensures LastTool(j).Some? <==> exists i: nat :: LatestTool(j, i)
    ensures forall i: nat :: LatestTool(j, i) ==> LastTool(j) == Some(j[i])
  {
    if j != [] {
      var before, last := j[..|j| - 1], |j| - 1;
      LastToolIs(before);
      if IsToolEntry(j[last]) {
        assert LatestTool(j, last);
      } else {
        forall i: nat
          ensures LatestTool(j, i) <==> LatestTool(before, i)
        {
          assert LatestTool(j, i) ==> i < last;
        }
      }
    }
  }

  /** A call is interrupted if the latest entry about any call says it was issued, and waits for a permission if
      that entry asks for one. */
  lemma {:induction false} ToolQueries(j: Log)
    ensures ToolInterrupted(j) <==> exists i: nat :: LatestTool(j, i) && j[i].ToolIssued?
    ensures PermissionPending(j) <==> exists i: nat :: LatestTool(j, i) && j[i].PermissionAsk?
  {
    hide LastTool, LatestTool;
    LastToolIs(j);
  }

  // ---------------------------------------------------------------- planning

  /** Entry `i` is a planning answer that nothing has decided, and no later answer has replaced. */
  predicate Undecided(j: Log, i: nat) {
    && i < |j| && j[i].PlanAnswered?
    && forall k :: i < k < |j| ==> !j[k].PlanAnswered? && !j[k].PlanAccepted? && !j[k].PlanRejected?
  }

  lemma {:induction false} SubmissionIs(j: Log)
    ensures UnprocessedSubmission(j).Some? <==> exists i: nat :: Undecided(j, i)
    ensures forall i: nat :: Undecided(j, i) ==> UnprocessedSubmission(j) == Some(j[i].submission)
  {
    if j != [] {
      var before, last := j[..|j| - 1], |j| - 1;
      SubmissionIs(before);
      if j[last].PlanAnswered? {
        assert Undecided(j, last);
      } else if !j[last].PlanAccepted? && !j[last].PlanRejected? {
        forall i: nat
          ensures Undecided(j, i) <==> Undecided(before, i)
        {
          assert Undecided(j, i) ==> i < last;
        }
      }
    }
  }

  // ---------------------------------------------------------------- plan steps

  /** Entry `i` is an answer for step `s` that nothing has acted on, and no later answer has replaced. Any tool
      call, completed step or noted change of scope counts as acting on it, whatever step it is about. */
  predicate NotActedOn(j: Log, s: StepId, i: nat) {
    && i < |j| && j[i].StepAnswered? && j[i].step == s
    && forall k :: i < k < |j| ==>
         !j[k].ToolIssued? && !j[k].StepCompleted? && !j[k].ScopeExpansion? && !(j[k].StepAnswered? && j[k].step == s)
  }

  lemma {:induction false} ActionIs(j: Log, s: StepId)
    ensures UnprocessedAction(j, s).Some? <==> exists i: nat :: NotActedOn(j, s, i)
    ensures forall i: nat :: NotActedOn(j, s, i) ==> UnprocessedAction(j, s) == Some(j[i].action)
  {
    if j != [] {
      var before, last := j[..|j| - 1], |j| - 1;
      ActionIs(before, s);
      if j[last].StepAnswered? && j[last].step == s {
        assert NotActedOn(j, s, last);
      } else if !j[last].ToolIssued? && !j[last].StepCompleted? && !j[last].ScopeExpansion? {
        forall i: nat
          ensures NotActedOn(j, s, i) <==> NotActedOn(before, s, i)
        {
          assert NotActedOn(j, s, i) ==> i < last;
        }
      }
    }
  }

  predicate StartedBefore(j: Log, s: StepId, k: nat)
    requires k <= |j|
  {
    exists i :: 0 <= i < k && j[i] == StepStarted(s)
  }

  /** The places at which the model was called for step `s` after the step was started. */
  ghost function CallsSinceStart(j: Log, s: StepId): set<nat> {
    set k: nat | k < |j| && j[k] == ModelCall(StepTurn(s)) && StartedBefore(j, s, k)
  }

  lemma {:induction false} LastCall(j: Log, s: StepId)
    requires j != []
    ensures var before, last := j[..|j| - 1], |j| - 1;
      CallsSinceStart(j, s) == CallsSinceStart(before, s)
        + if j[last] == ModelCall(StepTurn(s)) && IsStarted(before, s) then {last} else {}
  {
    hide StartedBefore, IsStarted;
    var before, last := j[..|j| - 1], |j| - 1;
    StartedIs(before, s);
    forall k: nat | k <= last
      ensures k < last ==> j[k] == before[k]
      ensures StartedBefore(j, s, k) <==> StartedBefore(before, s, k)
    {
      SameStart(j, s, k);
    }
  }

  lemma {:induction false} TurnsAre(j: Log, s: StepId)
    ensures TurnsSinceStart(j, s) == |CallsSinceStart(j, s)|
  {
    hide IsStarted;
    if j == [] {
      assert CallsSinceStart(j, s) == {};
    } else {
      TurnsAre(j[..|j| - 1], s);
      LastCall(j, s);
      assert |j| - 1 !in CallsSinceStart(j[..|j| - 1], s);
    }
  }

  lemma {:induction false} SameStart(j: Log, s: StepId, k: nat)
    requires k < |j|
    ensures StartedBefore(j, s, k) <==> StartedBefore(j[..|j| - 1], s, k)
  {
    assert forall i :: 0 <= i < k ==> j[..|j| - 1][i] == j[i];
  }

  lemma {:induction false} StartedIs(j: Log, s: StepId)
    ensures IsStarted(j, s) <==> StartedBefore(j, s, |j|)
  {
  }

  // ---------------------------------------------------------------- replay

  /** A file was touched if some diagnosis named it. */
  lemma {:induction false} TouchedAre(j: Log, f: Path)
    ensures f in TouchedFiles(j) <==> exists i :: 0 <= i < |j| && j[i].Diagnosed? && f in j[i].metric.filesTouched
  {
    if j != [] {
      TouchedAre(j[..|j| - 1], f);
      assert forall i :: 0 <= i < |j| - 1 ==> j[..|j| - 1][i] == j[i];
    }
  }

  /** A replay feeds the detector a diagnosis for each diagnosis and a pass for each passing check, in their
      order, and nothing else; the diagnosis names every file any diagnosis named up to then. */
  lemma {:induction false} ObservationsAre(before: Log, e: Entry)
    ensures Observations([]) == []
    ensures var j := before + [e];
      Observations(j) == Observations(before)
        + (if e.Diagnosed? then [Cycle(e.fingerprint, e.fileState, Metric(e.metric.frontier, e.metric.failureCount, TouchedFiles(j)))]
           else if e.VerifyResult? && e.passed then [Passed]
           else [])
  {
    assert (before + [e])[..|before|] == before;
  }

  /** And it rebuilds the ledger from the attempts and the two escalations among the decisions. */
  lemma {:induction false} LedgerIs(before: Log, e: Entry, maxAttempts: nat)
    ensures ReplayLedger([], maxAttempts) == R.Ledger([], maxAttempts, false, false)
    ensures var l, l' := ReplayLedger(before, maxAttempts), ReplayLedger(before + [e], maxAttempts);
      && l'.maxAttempts == l.maxAttempts
      && l'.attempts == l.attempts + (if e.Attempted? then [e.attempt.(number := |l.attempts| + 1)] else [])
      && (l'.escalated <==> l.escalated || e == Decided(R.EscalateStrategy))
      && (l'.switchedRole <==> l.switchedRole || e == Decided(R.SwitchRole))
  {
    assert (before + [e])[..|before|] == before;
  }
}
