/** Walking a plan ends: without crashes and without the user, plan-driven implementing leaves
    Implementing after finitely many steps. */
module AgentPlanLoop {
  import opened Options
  import opened Journal
  import opened Plans
  import opened Sequences
  import opened Agent
  import opened AgentTermination
  import P = AgentPlanSteps

  // ---------------------------------------------------------------- the measure

  function Remaining(p: Plan, j: Log): nat {
    |Drop(p.Order(), CompletedSteps(j))|
  }

  function TurnsLeft(p: Plan, j: Log): nat {
    match p.NextIncomplete(CompletedSteps(j))
    case None => 0
    case Some(s) => if TurnsSinceStart(j, s) < MAX_STEP_TURNS then MAX_STEP_TURNS - TurnsSinceStart(j, s) else 0
  }

  function Stored(p: Plan, j: Log): nat {
    match p.NextIncomplete(CompletedSteps(j))
    case None => 0
    case Some(s) => if UnprocessedAction(j, s).Some? then 1 else 0
  }

  function Interrupted(j: Log): nat {
    if ToolInterrupted(j) then 1 else 0
  }

  predicate Less(p: Plan, j': Log, j: Log) {
    || Remaining(p, j') < Remaining(p, j)
    || (Remaining(p, j') == Remaining(p, j) && TurnsLeft(p, j') < TurnsLeft(p, j))
    || (Remaining(p, j') == Remaining(p, j) && TurnsLeft(p, j') == TurnsLeft(p, j) && Stored(p, j') < Stored(p, j))
    || (Remaining(p, j') == Remaining(p, j) && TurnsLeft(p, j') == TurnsLeft(p, j) && Stored(p, j') == Stored(p, j)
        && Interrupted(j') < Interrupted(j))
  }

  // ---------------------------------------------------------------- completed steps

  lemma {:induction false} CompletedGrow(j: Log, more: Log)
    ensures CompletedSteps(j) <= CompletedSteps(j + more)
    ensures forall s :: StepCompleted(s) in more ==> s in CompletedSteps(j + more)
    ensures (forall e :: e in more ==> !e.StepCompleted?) ==> CompletedSteps(j + more) == CompletedSteps(j)
  {
    var all := j + more;
    forall s | s in CompletedSteps(j)
      ensures s in CompletedSteps(all)
    {
      var i :| 0 <= i < |j| && j[i].StepCompleted? && j[i].step == s;
      assert all[i] == StepCompleted(s);
    }
    forall s | StepCompleted(s) in more
      ensures s in CompletedSteps(all)
    {
      var i :| 0 <= i < |more| && more[i] == StepCompleted(s);
      assert all[|j| + i] == StepCompleted(s);
    }
    if forall e :: e in more ==> !e.StepCompleted? {
      forall s | s in CompletedSteps(all)
        ensures s in CompletedSteps(j)
      {
        var i :| 0 <= i < |all| && all[i].StepCompleted? && all[i].step == s;
        assert i < |j| by {
          assert forall k :: 0 <= k < |more| ==> more[k] in more;
        }
      }
    }
  }

  lemma {:induction false} DropShrinks(order: seq<StepId>, done: set<StepId>, more: set<StepId>)
    requires done <= more
    ensures |Drop(order, more)| <= |Drop(order, done)|
    ensures (exists s :: s in order && s !in done && s in more) ==> |Drop(order, more)| < |Drop(order, done)|
  {
    if order != [] {
      DropShrinks(order[1..], done, more);
      assert forall s :: s in order ==> s == order[0] || s in order[1..];
    }
  }

  /** Completing the next step leaves fewer. */
  lemma {:induction false} CompletionLess(p: Plan, j: Log, ws: seq<Write>, s: StepId)
    requires p.NextIncomplete(CompletedSteps(j)) == Some(s) && Append(StepCompleted(s)) in ws
    ensures Less(p, j + Entries(ws), j)
  {
    hide CompletedSteps, TurnsLeft, Stored, Interrupted;
    EntriesIn(ws);
    CompletedGrow(j, Entries(ws));
    DropShrinks(p.Order(), CompletedSteps(j), CompletedSteps(j + Entries(ws)));
  }

  predicate CompletesNothing(ws: seq<Write>) {
    forall w :: w in ws ==> !(w.Append? && w.entry.StepCompleted?)
  }

  lemma {:induction false} NothingCompleted(p: Plan, j: Log, ws: seq<Write>)
    requires CompletesNothing(ws)
    ensures CompletedSteps(j + Entries(ws)) == CompletedSteps(j)
  {
    EntriesIn(ws);
    CompletedGrow(j, Entries(ws));
  }

  // ---------------------------------------------------------------- tool calls inside a step

  const RAN: seq<Write> := [Append(ToolIssued), World(Edited), Append(ToolResult)]

  /** A tool that ran leaves nothing stored and nothing interrupted, and counts no turn. */
  lemma {:induction false} RanTool(j: Log, s: StepId)
    ensures var j' := j + Entries(RAN);
      && UnprocessedAction(j', s) == None
      && !ToolInterrupted(j')
      && TurnsSinceStart(j', s) == TurnsSinceStart(j, s)
  {
    var j1 := j + [ToolIssued];
    var j2 := j1 + [ToolResult];
    assert Entries(RAN) == [ToolIssued, ToolResult] by {
      assert RAN[..2] == [Append(ToolIssued), World(Edited)] && RAN[..2][..1] == [Append(ToolIssued)];
      assert Entries([Append(ToolIssued)]) == [ToolIssued];
    }
    assert j + Entries(RAN) == j2;
    assert j2[..|j2| - 1] == j1 && j1[..|j1| - 1] == j;
    P.NeutralKeeps(j, RAN, s);
  }

  // ---------------------------------------------------------------- redoing an interrupted call

  lemma {:induction false} RedoLess(t: Task, e: Env, p: Plan)
    requires t.d.state.Implementing? && ToolInterrupted(t.d.journal) && e.tool.Executed?
    ensures Less(p, t.d.journal + Entries(RAN), t.d.journal)
  {
    hide CompletedSteps, TurnsSinceStart, UnprocessedAction, LastTool;
    var j := t.d.journal;
    NothingCompleted(p, j, RAN);
    match p.NextIncomplete(CompletedSteps(j))
    case None => RanTool(j, "");
    case Some(s) => RanTool(j, s);
  }

  // ---------------------------------------------------------------- a solo step

  lemma {:induction false} OpenTurns(j: Log, p: Plan, s: StepId)
    ensures var j' := j + Entries(OpenStep(j, p, s));
      && IsStarted(j', s) && TurnsSinceStart(j', s) == TurnsSinceStart(j, s)
    ensures CompletesNothing(OpenStep(j, p, s))
  {
    P.OpenFine(j, j, p, s);
  }

  lemma {:induction false} CallTurn(j: Log, s: StepId, action: StepAction)
    requires IsStarted(j, s)
    ensures var ws := [Append(ModelCall(StepTurn(s))), Append(StepAnswered(s, action))];
      TurnsSinceStart(j + Entries(ws), s) == TurnsSinceStart(j, s) + 1
  {
    var ws := [Append(ModelCall(StepTurn(s))), Append(StepAnswered(s, action))];
    var j1 := j + [ModelCall(StepTurn(s))];
    var j2 := j1 + [StepAnswered(s, action)];
    assert ws[..1] == [Append(ModelCall(StepTurn(s)))] && Entries(ws[..1]) == [ModelCall(StepTurn(s))];
    assert j + Entries(ws) == j2;
    assert j2[..|j2| - 1] == j1 && j1[..|j1| - 1] == j;
  }

  /** What a tool call that ran adds after an opened step: the scope note, if any, and the call. */
  function ToolTail(e: Env): seq<Write> {
    (if e.outOfScope then [Append(ScopeExpansion)] else []) + RAN
  }

  lemma {:induction false} TailKeeps(j: Log, e: Env, s: StepId)
    ensures var j' := j + Entries(ToolTail(e));
      UnprocessedAction(j', s) == None && !ToolInterrupted(j') && TurnsSinceStart(j', s) == TurnsSinceStart(j, s)
    ensures CompletesNothing(ToolTail(e))
  {
    hide UnprocessedAction, LastTool, TurnsSinceStart;
    var note := if e.outOfScope then [Append(ScopeExpansion)] else [];
    P.NeutralKeeps(j, note, s);
    EntriesConcat(note, RAN);
    assert j + Entries(ToolTail(e)) == (j + Entries(note)) + Entries(RAN);
    RanTool(j + Entries(note), s);
  }

  /** Replaying a stored tool call. */
  lemma {:induction false} StoredLess(t: Task, e: Env, p: Plan, s: StepId)
    requires p.NextIncomplete(CompletedSteps(t.d.journal)) == Some(s)
    requires UnprocessedAction(t.d.journal, s).Some?
    ensures Less(p, t.d.journal + Entries(OpenStep(t.d.journal, p, s) + ToolTail(e)), t.d.journal)
  {
    hide CompletedSteps, UnprocessedAction, TurnsSinceStart, OpenStep, ToolTail, LastTool;
    var j := t.d.journal;
    var open := OpenStep(j, p, s);
    OpenTurns(j, p, s);
    EntriesConcat(open, ToolTail(e));
    assert j + Entries(open + ToolTail(e)) == (j + Entries(open)) + Entries(ToolTail(e));
    TailKeeps(j + Entries(open), e, s);
    NothingCompleted(p, j, open + ToolTail(e));
  }

  /** Opening a step and taking a turn that asks for a tool. */
  function TurnOpening(j: Log, p: Plan, s: StepId): seq<Write> {
    OpenStep(j, p, s) + [Append(ModelCall(StepTurn(s))), Append(StepAnswered(s, StepTool))]
  }

  lemma {:induction false} TurnOpens(j: Log, p: Plan, s: StepId)
    ensures TurnsSinceStart(j + Entries(TurnOpening(j, p, s)), s) == TurnsSinceStart(j, s) + 1
    ensures CompletesNothing(TurnOpening(j, p, s))
  {
    hide CompletedSteps, TurnsSinceStart, OpenStep;
    var open := OpenStep(j, p, s);
    var turn := [Append(ModelCall(StepTurn(s))), Append(StepAnswered(s, StepTool))];
    OpenTurns(j, p, s);
    CallTurn(j + Entries(open), s, StepTool);
    EntriesConcat(open, turn);
    assert j + Entries(open + turn) == (j + Entries(open)) + Entries(turn);
  }

  /** A fresh turn that runs a tool. */
  lemma {:induction false} TurnLess(t: Task, e: Env, p: Plan, s: StepId)
    requires p.NextIncomplete(CompletedSteps(t.d.journal)) == Some(s)
    requires TurnsSinceStart(t.d.journal, s) < MAX_STEP_TURNS
    ensures Less(p, t.d.journal + Entries(TurnOpening(t.d.journal, p, s) + ToolTail(e)), t.d.journal)
  {
    hide CompletedSteps, UnprocessedAction, TurnsSinceStart, TurnOpening, ToolTail, LastTool;
    var j := t.d.journal;
    var opening := TurnOpening(j, p, s);
    TurnOpens(j, p, s);
    EntriesConcat(opening, ToolTail(e));
    assert j + Entries(opening + ToolTail(e)) == (j + Entries(opening)) + Entries(ToolTail(e));
    TailKeeps(j + Entries(opening), e, s);
    NothingCompleted(p, j, opening + ToolTail(e));
  }

  predicate Leaves(s: State) {
    s.Verifying? || s.Failed? || s.WaitingForPermission? || s.WaitingForUser?
  }

  /** What the writes of a step come to: it leaves Implementing, or it goes on with less to do. */
  predicate Comes(d: Durable, ws: seq<Write>, p: Plan) {
    || Leaves(ApplyAll(d, ws).state)
    || (ApplyAll(d, ws).state == d.state && Less(p, d.journal + Entries(ws), d.journal))
  }

  lemma {:induction false} EndsAt(d: Durable, ws: seq<Write>, s: State)
    requires ws != [] && ws[|ws| - 1] == Goto(s)
    ensures ApplyAll(d, ws).state == s
  {
    StateAfter(d, ws, |ws|);
  }

  predicate NoGoto(ws: seq<Write>) {
    forall w :: w in ws ==> !w.Goto?
  }

  lemma {:induction false} GoesOn(d: Durable, ws: seq<Write>)
    requires NoGoto(ws)
    ensures ApplyAll(d, ws).state == d.state
  {
    forall k | 0 <= k < |ws|
      ensures !ws[k].Goto?
    {
      assert ws[k] in ws;
    }
    StateAfter(d, ws, 0);
  }

  /** Any writes that end in a tool call either leave Implementing, or end in a call that ran. */
  lemma {:induction false} ToolEnds(d: Durable, pre: seq<Write>, r: ToolOutcome)
    requires d.state.Implementing?
    ensures !r.Executed? ==> Leaves(ApplyAll(d, pre + ToolAndStop(Implementing, r)).state)
    ensures r.Executed? ==> ToolAndStop(Implementing, r) == RAN
  {
    if !r.Executed? {
      var ws := pre + ToolAndStop(Implementing, r);
      var tail := ToolAndStop(Implementing, r);
      assert tail[|tail| - 1].Goto?;
      assert ws[|ws| - 1] == tail[|tail| - 1];
      StateAfter(d, ws, |ws|);
    }
  }

  lemma {:induction false} ActComes(t: Task, e: Env, p: Plan, s: StepId, pre: seq<Write>, action: StepAction)
    requires t.d.state.Implementing? && NoGoto(pre)
    requires p.NextIncomplete(CompletedSteps(t.d.journal)) == Some(s)
    requires Less(p, t.d.journal + Entries(pre + ToolTail(e)), t.d.journal)
    ensures Comes(t.d, pre + ActOn(Implementing, s, action, e), p)
  {
    hide CompletedSteps, Less;
    var ws := pre + ActOn(Implementing, s, action, e);
    match action
    case StepAsk => EndsAt(t.d, ws, WaitingForUser);
    case StepFinish =>
      GoesOn(t.d, ws);
      CompletionLess(p, t.d.journal, ws, s);
    case StepTool =>
      var note := if e.outOfScope then [Append(ScopeExpansion)] else [];
      assert ws == (pre + note) + ToolAndStop(Implementing, e.tool);
      ToolEnds(t.d, pre + note, e.tool);
      if e.tool.Executed? {
        assert ws == pre + ToolTail(e);
        GoesOn(t.d, ws);
      }
  }

  lemma {:induction false} SoloComes(t: Task, e: Env, p: Plan, s: StepId)
    requires t.d.state.Implementing?
    requires p.NextIncomplete(CompletedSteps(t.d.journal)) == Some(s)
    ensures Comes(t.d, SoloStep(t, e, p, s), p)
  {
    hide CompletedSteps, UnprocessedAction, TurnsSinceStart, OpenStep, ActOn, SoloStep, Less, ToolTail;
    var j := t.d.journal;
    var open := OpenStep(j, p, s);
    P.SoloShape(t, e, p, s);
    OpenNoGoto(j, p, s);
    if TurnsSinceStart(j, s) >= MAX_STEP_TURNS {
      GoesOn(t.d, open + [Append(StepCompleted(s))]);
      CompletionLess(p, j, open + [Append(StepCompleted(s))], s);
    } else if UnprocessedAction(j, s).Some? {
      StoredLess(t, e, p, s);
      ActComes(t, e, p, s, open, UnprocessedAction(j, s).value);
    } else if e.reply.Unavailable? || e.reply.Malformed? {
      var ws := open + ([Append(ModelCall(StepTurn(s)))] + FAILING);
      EndsAt(t.d, ws, Failed);
    } else {
      TurnLess(t, e, p, s);
      FreshComes(t, e, p, s);
    }
  }

  lemma {:induction false} FreshComes(t: Task, e: Env, p: Plan, s: StepId)
    requires t.d.state.Implementing? && !e.reply.Unavailable? && !e.reply.Malformed?
    requires p.NextIncomplete(CompletedSteps(t.d.journal)) == Some(s)
    requires Less(p, t.d.journal + Entries(TurnOpening(t.d.journal, p, s) + ToolTail(e)), t.d.journal)
    ensures var action := ActionOf(e.reply);
      Comes(t.d, OpenStep(t.d.journal, p, s)
                 + ([Append(ModelCall(StepTurn(s))), Append(StepAnswered(s, action))] + ActOn(Implementing, s, action, e)), p)
  {
    hide CompletedSteps, OpenStep, Less, ToolTail, ActOn;
    var action := ActionOf(e.reply);
    var open := OpenStep(t.d.journal, p, s);
    var turn := [Append(ModelCall(StepTurn(s))), Append(StepAnswered(s, action))];
    OpenNoGoto(t.d.journal, p, s);
    assert open + (turn + ActOn(Implementing, s, action, e)) == (open + turn) + ActOn(Implementing, s, action, e);
    if action.StepTool? {
      ActComes(t, e, p, s, open + turn, action);
    } else {
      ActEnds(t, e, p, s, open + turn, action);
    }
  }

  lemma {:induction false} ActEnds(t: Task, e: Env, p: Plan, s: StepId, pre: seq<Write>, action: StepAction)
    requires t.d.state.Implementing? && NoGoto(pre) && !action.StepTool?
    requires p.NextIncomplete(CompletedSteps(t.d.journal)) == Some(s)
    ensures Comes(t.d, pre + ActOn(Implementing, s, action, e), p)
  {
    hide CompletedSteps, Less;
    var ws := pre + ActOn(Implementing, s, action, e);
    if action.StepAsk? {
      EndsAt(t.d, ws, WaitingForUser);
    } else {
      GoesOn(t.d, ws);
      CompletionLess(p, t.d.journal, ws, s);
    }
  }

  lemma {:induction false} OpenNoGoto(j: Log, p: Plan, s: StepId)
    ensures NoGoto(OpenStep(j, p, s))
  {
    hide HasCheckpoint, IsStarted;
  }

  // ---------------------------------------------------------------- a parallel wave

  lemma {:induction false} FoldEnds(d: Durable, pre: seq<Write>, j: Log, p: Plan, chunk: seq<StepId>, ok: set<StepId>)
    ensures var ws := FoldChildren(j, p, chunk, ok);
      if forall x :: x in chunk ==> x in ok
      then NoGoto(ws) && forall x :: x in chunk ==> Append(StepCompleted(x)) in ws
      else ApplyAll(d, pre + ws).state.Failed?
    decreases |chunk|
  {
    hide OpenStep;
    if chunk != [] {
      if chunk[0] !in ok {
        EndsAt(d, pre + FAILING, Failed);
      } else {
        var first := OpenStep(j, p, chunk[0]) + [Append(StepCompleted(chunk[0]))];
        OpenNoGoto(j, p, chunk[0]);
        FoldEnds(d, pre + first, j, p, chunk[1..], ok);
        assert pre + FoldChildren(j, p, chunk, ok) == (pre + first) + FoldChildren(j, p, chunk[1..], ok);
        assert forall x :: x in chunk ==> x == chunk[0] || x in chunk[1..];
      }
    }
  }

  lemma {:induction false} WaveEnds(d: Durable, pre: seq<Write>, j: Log, p: Plan, chunks: seq<seq<StepId>>, ok: set<StepId>)
    requires NoGoto(pre)
    ensures var ws := WaveWrites(j, p, chunks, ok);
      if forall x :: x in Flatten(chunks) ==> x in ok
      then NoGoto(ws) && forall x :: x in Flatten(chunks) ==> Append(StepCompleted(x)) in ws
      else ApplyAll(d, pre + ws).state.Failed?
    decreases |chunks|
  {
    hide FoldChildren, Flatten, ApplyAll, WaveWrites;
    if chunks == [] {
      NoChunks(j, p, ok);
    } else {
      var edits := seq(|chunks[0]|, _ => World(Edited));
      var fold := FoldChildren(j, p, chunks[0], ok);
      ChunksShape(j, p, chunks, ok);
      FoldEnds(d, pre + edits, j, p, chunks[0], ok);
      if forall x :: x in chunks[0] ==> x in ok {
        WaveEnds(d, pre + edits + fold, j, p, chunks[1..], ok);
        assert pre + WaveWrites(j, p, chunks, ok) == (pre + edits + fold) + WaveWrites(j, p, chunks[1..], ok);
      } else {
        assert pre + WaveWrites(j, p, chunks, ok) == (pre + edits) + fold;
      }
    }
  }

  lemma {:induction false} NoChunks(j: Log, p: Plan, ok: set<StepId>)
    ensures WaveWrites(j, p, [], ok) == [] && Flatten<StepId>([]) == []
  {
  }

  /** The first chunk, and the others if its children all completed. */
  lemma {:induction false} ChunksShape(j: Log, p: Plan, chunks: seq<seq<StepId>>, ok: set<StepId>)
    requires chunks != []
    ensures Flatten(chunks) == chunks[0] + Flatten(chunks[1..])
    ensures WaveWrites(j, p, chunks, ok)
            == seq(|chunks[0]|, _ => World(Edited)) + FoldChildren(j, p, chunks[0], ok)
               + (if forall x :: x in chunks[0] ==> x in ok then WaveWrites(j, p, chunks[1..], ok) else [])
  {
    hide FoldChildren;
  }

  lemma {:induction false} NextInGroup(p: Plan, j: Log, s: StepId)
    requires p.NextIncomplete(CompletedSteps(j)) == Some(s)
    ensures s in Flatten(AllChunks(Batched(p, Incomplete(p, j, s))))
  {
    hide CompletedSteps;
    var rest := Incomplete(p, j, s);
    assert s in p.GroupFor(s);
    assert s in rest;
    EachStepPlacedOnce(p, rest);
    assert s in multiset(Flatten(Batched(p, rest)));
  }

  lemma {:induction false} WaveComes(t: Task, e: Env, p: Plan, s: StepId)
    requires t.d.state.Implementing?
    requires p.NextIncomplete(CompletedSteps(t.d.journal)) == Some(s)
    ensures Comes(t.d, WaveWrites(t.d.journal, p, AllChunks(Batched(p, Incomplete(p, t.d.journal, s))), e.childrenOk), p)
  {
    hide CompletedSteps, Less, WaveWrites, Incomplete;
    var chunks := AllChunks(Batched(p, Incomplete(p, t.d.journal, s)));
    var ws := WaveWrites(t.d.journal, p, chunks, e.childrenOk);
    NextInGroup(p, t.d.journal, s);
    WaveEnds(t.d, [], t.d.journal, p, chunks, e.childrenOk);
    assert [] + ws == ws;
    if forall x :: x in Flatten(chunks) ==> x in e.childrenOk {
      GoesOn(t.d, ws);
      CompletionLess(p, t.d.journal, ws, s);
    }
  }

  // ---------------------------------------------------------------- the loop

  lemma {:induction false} StepComes(t: Task, e: Env, p: Plan)
    requires t.d.state.Implementing?
    ensures Comes(t.d, ImplementPlanStep(t, e, p).writes, p)
  {
    hide CompletedSteps, Less, WaveWrites, SoloStep, ToolAndStop, Incomplete, LastTool;
    var j := t.d.journal;
    if ToolInterrupted(j) {
      ToolEnds(t.d, [], e.tool);
      assert [] + ToolAndStop(Implementing, e.tool) == ToolAndStop(Implementing, e.tool);
      if e.tool.Executed? {
        RedoLess(t, e, p);
        GoesOn(t.d, RAN);
      }
    } else if !e.stillValid {
      EndsAt(t.d, FAILING, Failed);
    } else {
      match p.NextIncomplete(CompletedSteps(j))
      case None => EndsAt(t.d, [Goto(Verifying)], Verifying);
      case Some(s) =>
        if |Incomplete(p, j, s)| > 1 {
          WaveComes(t, e, p, s);
        } else {
          SoloComes(t, e, p, s);
        }
    }
  }

  lemma {:induction false} PlanKept(d: Durable, ws: seq<Write>)
    requires AllMay(Implementing, ws)
    ensures ApplyAll(d, ws).plan == d.plan
  {
    if ws != [] {
      PlanKept(d, ws[..|ws| - 1]);
      assert MayWrite(Implementing, ws[|ws| - 1]);
    }
  }

  /** One step of a planned task: it leaves Implementing, or it goes on with less to do. */
  lemma {:induction false} PlanProgress(t: Task, e: Env)
    requires t.d.state.Implementing? && t.d.plan.Some?
    ensures var t' := Step(t, Run(Drive(e)));
      && t'.d.plan == t.d.plan
      && (Leaves(t'.d.state) || (t'.d.state.Implementing? && Less(t.d.plan.value, t'.d.journal, t.d.journal)))
  {
    hide ImplementPlanStep, Less;
    var ws := ImplementPlanStep(t, e, t.d.plan.value).writes;
    assert Step(t, Run(Drive(e))).d == ApplyAll(t.d, ws);
    StepComes(t, e, t.d.plan.value);
    JournalAfter(t.d, ws);
    ImplementPlanMay(t, e, t.d.plan.value);
    PlanKept(t.d, ws);
  }

  lemma {:induction false} PlanLoopEnds(t: Task, envs: nat -> Env, p: Plan) returns (n: nat)
    requires t.d.state.Implementing? && t.d.plan == Some(p)
    ensures Leaves(Driven(t, envs, n).d.state)
    decreases Remaining(p, t.d.journal), TurnsLeft(p, t.d.journal), Stored(p, t.d.journal), Interrupted(t.d.journal)
  {
    hide Do, DriveStep, Remaining, TurnsLeft, Stored, Interrupted;
    PlanProgress(t, envs(0));
    var t' := Step(t, Run(Drive(envs(0))));
    if t'.d.state.Implementing? {
      var m := PlanLoopEnds(t', (k: nat) => envs(k + 1), p);
      DrivenShift(t, envs, m);
      n := m + 1;
    } else {
      assert Driven(t, envs, 0) == t;
      assert Driven(t, envs, 1) == t';
      n := 1;
    }
  }

  /** From every planned task in Implementing, whatever its journal holds: without a crash and without
      the user the driver hands over to verification, fails, or waits for someone, after finitely many
      steps - three model turns a step at most, then the step counts as done. A question counts as
      leaving; see `AnswerIsAskedAgain`. */
  lemma {:induction false} PlanLoopTerminates(t: Task, envs: nat -> Env)
    requires t.d.state.Implementing? && t.d.plan.Some?
    ensures exists n: nat :: Leaves(Driven(t, envs, n).d.state)
  {
    var n := PlanLoopEnds(t, envs, t.d.plan.value);
  }
}
