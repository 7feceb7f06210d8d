/** Plan-driven implementing: what the journal of a task never holds twice, whatever crashes. */
module AgentPlanSteps {
  import opened Journal
  import opened Plans
  import opened Sequences
  import opened Agent
  import opened Discipline

  // ---------------------------------------------------------------- the discipline of one step

  predicate MentionsStep(e: Entry, s: StepId) {
    e == StepStarted(s) || e == StepCompleted(s) || e == ModelCall(StepTurn(s))
  }

  /** `e` may follow `j`, as far as step `s` is concerned. */
  predicate MayFollow(j: Log, e: Entry, s: StepId) {
    && (e == StepStarted(s) ==> !IsStarted(j, s))
    && (e == StepCompleted(s) ==> s !in CompletedSteps(j) && IsStarted(j, s))
    && (e == ModelCall(StepTurn(s)) ==>
          s !in CompletedSteps(j) && IsStarted(j, s) && TurnsSinceStart(j, s) < MAX_STEP_TURNS)
  }

  function StepRule(s: StepId): Rule {
    (j: Log, e: Entry) => MayFollow(j, e, s)
  }

  function Starts(j: Log, s: StepId): nat {
    Count(j, (e: Entry) => e == StepStarted(s))
  }

  function Completions(j: Log, s: StepId): nat {
    Count(j, (e: Entry) => e == StepCompleted(s))
  }

  function Calls(j: Log, s: StepId): nat {
    Count(j, (e: Entry) => e == ModelCall(StepTurn(s)))
  }

  lemma {:induction false} KnownBefore(j: Log, s: StepId)
    requires j != []
    ensures IsStarted(j, s) <==> IsStarted(j[..|j| - 1], s) || j[|j| - 1] == StepStarted(s)
    ensures s in CompletedSteps(j) <==> s in CompletedSteps(j[..|j| - 1]) || j[|j| - 1] == StepCompleted(s)
  {
    var before := j[..|j| - 1];
    if IsStarted(before, s) {
      var i :| 0 <= i < |before| && before[i] == StepStarted(s);
      assert j[i] == StepStarted(s);
    }
    if s in CompletedSteps(before) {
      var i :| 0 <= i < |before| && before[i].StepCompleted? && before[i].step == s;
      assert j[i] == StepCompleted(s);
    }
    assert forall i :: 0 <= i < |before| ==> before[i] == j[i];
  }

  /** The discipline bounds every count: one start, one completion, three model calls, and no call
      after the completion; and every call, and the completion, was made after the start. */
  lemma {:induction false} DisciplineBounds(j: Log, s: StepId)
    requires Obeyed(j, StepRule(s))
    ensures Starts(j, s) == (if IsStarted(j, s) then 1 else 0)
    ensures Completions(j, s) == (if s in CompletedSteps(j) then 1 else 0)
    ensures Calls(j, s) == TurnsSinceStart(j, s) <= MAX_STEP_TURNS
  {
    if j != [] {
      DisciplineBounds(j[..|j| - 1], s);
      KnownBefore(j, s);
    }
  }

  lemma {:induction false} NoCallAfterCompletion(j: Log, s: StepId, i: nat, k: nat)
    requires Obeyed(j, StepRule(s)) && i < k < |j| && j[i] == StepCompleted(s)
    ensures j[k] != ModelCall(StepTurn(s))
  {
    if k == |j| - 1 {
      assert j[..|j| - 1][i] == StepCompleted(s);
      assert s in CompletedSteps(j[..|j| - 1]);
    } else {
      NoCallAfterCompletion(j[..|j| - 1], s, i, k);
    }
  }

  // ---------------------------------------------------------------- disciplined writes

  /** Writes that never mention `s`. */
  predicate Neutral(ws: seq<Write>, s: StepId) {
    forall w :: w in ws ==> !(w.Append? && MentionsStep(w.entry, s))
  }

  lemma {:induction false} NeutralKeeps(j: Log, ws: seq<Write>, s: StepId)
    requires Neutral(ws, s)
    ensures Fine(j, ws, StepRule(s))
    ensures var j' := j + Entries(ws);
      && (IsStarted(j', s) <==> IsStarted(j, s))
      && (s in CompletedSteps(j') <==> s in CompletedSteps(j))
      && TurnsSinceStart(j', s) == TurnsSinceStart(j, s)
  {
    if ws == [] {
      assert j + Entries(ws) == j;
    } else {
      var before, last := ws[..|ws| - 1], ws[|ws| - 1];
      NeutralKeeps(j, before, s);
      assert last in ws;
      if last.Append? {
        var whole := j + Entries(ws);
        assert whole[..|whole| - 1] == j + Entries(before);
        KnownBefore(whole, s);
      } else {
        assert Entries(ws) == Entries(before);
      }
    }
  }

  lemma {:induction false} StartFine(now: Log, s: StepId)
    requires !IsStarted(now, s)
    ensures Fine(now, [Append(StepStarted(s))], StepRule(s))
    ensures var now' := now + Entries([Append(StepStarted(s))]);
      && IsStarted(now', s)
      && (s in CompletedSteps(now') <==> s in CompletedSteps(now))
      && TurnsSinceStart(now', s) == TurnsSinceStart(now, s)
  {
    hide CompletedSteps;
    OneWrite(now, StepStarted(s), StepRule(s));
    var now' := now + [StepStarted(s)];
    assert now'[..|now'| - 1] == now;
    KnownBefore(now', s);
  }

  /** Opening a step starts it, once, and changes nothing else about it. */
  lemma {:induction false} OpenFine(j: Log, now: Log, p: Plan, s: StepId)
    requires IsStarted(now, s) <==> IsStarted(j, s)
    ensures Fine(now, OpenStep(j, p, s), StepRule(s))
    ensures var now' := now + Entries(OpenStep(j, p, s));
      && IsStarted(now', s)
      && (s in CompletedSteps(now') <==> s in CompletedSteps(now))
      && TurnsSinceStart(now', s) == TurnsSinceStart(now, s)
  {
    hide IsStarted, CompletedSteps, TurnsSinceStart, HasCheckpoint, StepRule;
    var first := if s in p.checkpoints && !HasCheckpoint(j, s) then [Append(Checkpoint(s))] else [];
    var second := if !IsStarted(j, s) then [Append(StepStarted(s))] else [];
    assert OpenStep(j, p, s) == first + second;
    NeutralKeeps(now, first, s);
    var mid := now + Entries(first);
    EntriesConcat(first, second);
    assert now + Entries(first + second) == mid + Entries(second);
    if second == [] {
      assert Neutral([], s);
      NeutralKeeps(mid, [], s);
    } else {
      StartFine(mid, s);
    }
    FineConcat(now, first, second, StepRule(s));
  }

  // ---------------------------------------------------------------- a solo step

  lemma {:induction false} ActNeutral(st: State, s: StepId, action: StepAction, e: Env)
    ensures !action.StepFinish? ==> Neutral(ActOn(st, s, action, e), s)
    ensures action.StepFinish? ==> ActOn(st, s, action, e) == [Append(StepCompleted(s))]
  {
  }

  lemma {:induction false} ActFine(j: Log, st: State, s: StepId, action: StepAction, e: Env)
    requires s !in CompletedSteps(j) && IsStarted(j, s)
    ensures Fine(j, ActOn(st, s, action, e), StepRule(s))
  {
    ActNeutral(st, s, action, e);
    if action.StepFinish? {
      OneWrite(j, StepCompleted(s), StepRule(s));
    } else {
      NeutralKeeps(j, ActOn(st, s, action, e), s);
    }
  }

  /** A fresh turn: the call, its answer, and acting on it. */
  lemma {:induction false} TurnFine(j: Log, st: State, s: StepId, e: Env)
    requires s !in CompletedSteps(j) && IsStarted(j, s) && TurnsSinceStart(j, s) < MAX_STEP_TURNS
    requires !e.reply.Unavailable? && !e.reply.Malformed?
    ensures var action := ActionOf(e.reply);
      Fine(j, [Append(ModelCall(StepTurn(s))), Append(StepAnswered(s, action))] + ActOn(st, s, action, e), StepRule(s))
  {
    var action := ActionOf(e.reply);
    var call, answer := Append(ModelCall(StepTurn(s))), Append(StepAnswered(s, action));
    OneWrite(j, call.entry, StepRule(s));
    var j1 := j + [call.entry];
    assert j1[..|j1| - 1] == j;
    KnownBefore(j1, s);
    assert Neutral([answer], s);
    NeutralKeeps(j1, [answer], s);
    FineConcat(j, [call], [answer], StepRule(s));
    assert [call] + [answer] == [call, answer];
    EntriesConcat([call], [answer]);
    var j2 := j + Entries([call, answer]);
    assert j2 == j1 + Entries([answer]);
    ActFine(j2, st, s, action, e);
    FineConcat(j, [call, answer], ActOn(st, s, action, e), StepRule(s));
  }

  lemma {:induction false} FailedTurnFine(j: Log, s: StepId)
    requires s !in CompletedSteps(j) && IsStarted(j, s) && TurnsSinceStart(j, s) < MAX_STEP_TURNS
    ensures Fine(j, [Append(ModelCall(StepTurn(s)))] + FAILING, StepRule(s))
  {
    OneWrite(j, ModelCall(StepTurn(s)), StepRule(s));
    NeutralKeeps(j + Entries([Append(ModelCall(StepTurn(s)))]), FAILING, s);
    FineConcat(j, [Append(ModelCall(StepTurn(s)))], FAILING, StepRule(s));
  }

  /** What follows the opening of a solo step. */
  function AfterOpen(t: Task, e: Env, s: StepId): seq<Write> {
    var j := t.d.journal;
    if TurnsSinceStart(j, s) >= MAX_STEP_TURNS then [Append(StepCompleted(s))]
    else match UnprocessedAction(j, s)
         case Some(action) => ActOn(t.d.state, s, action, e)
         case None =>
           if e.reply.Unavailable? || e.reply.Malformed? then [Append(ModelCall(StepTurn(s)))] + FAILING
           else [Append(ModelCall(StepTurn(s))), Append(StepAnswered(s, ActionOf(e.reply)))]
                + ActOn(t.d.state, s, ActionOf(e.reply), e)
  }

  lemma {:induction false} SoloShape(t: Task, e: Env, p: Plan, s: StepId)
    ensures SoloStep(t, e, p, s) == OpenStep(t.d.journal, p, s) + AfterOpen(t, e, s)
  {
    hide OpenStep, ActOn;
  }

  lemma {:induction false} NoTurnsUnstarted(j: Log, s: StepId)
    requires !IsStarted(j, s)
    ensures TurnsSinceStart(j, s) == 0
  {
    if j != [] {
      KnownBefore(j, s);
      NoTurnsUnstarted(j[..|j| - 1], s);
    }
  }

  lemma {:induction false} SoloFine(t: Task, e: Env, p: Plan, s: StepId)
    requires s !in CompletedSteps(t.d.journal)
    ensures Fine(t.d.journal, SoloStep(t, e, p, s), StepRule(s))
  {
    hide OpenStep, ActOn, SoloStep, UnprocessedAction;
    var j := t.d.journal;
    SoloShape(t, e, p, s);
    OpenFine(j, j, p, s);
    if !IsStarted(j, s) {
      NoTurnsUnstarted(j, s);
    }
    var now := j + Entries(OpenStep(j, p, s));
    if TurnsSinceStart(j, s) >= MAX_STEP_TURNS {
      OneWrite(now, StepCompleted(s), StepRule(s));
    } else if UnprocessedAction(j, s).Some? {
      ActFine(now, t.d.state, s, UnprocessedAction(j, s).value, e);
    } else if e.reply.Unavailable? || e.reply.Malformed? {
      FailedTurnFine(now, s);
    } else {
      TurnFine(now, t.d.state, s, e);
    }
    FineConcat(j, OpenStep(j, p, s), AfterOpen(t, e, s), StepRule(s));
  }

  lemma {:induction false} SoloNeutral(t: Task, e: Env, p: Plan, s: StepId, other: StepId)
    requires s != other
    ensures Neutral(SoloStep(t, e, p, s), other)
  {
    hide UnprocessedAction, TurnsSinceStart, OpenStep, ActOn, SoloStep;
    SoloShape(t, e, p, s);
    FirstNeutral(t.d.journal, p, s, other);
    ActOther(t.d.state, s, e, other);
    assert Neutral(OpenStep(t.d.journal, p, s), other) by {
      assert forall w :: w in OpenStep(t.d.journal, p, s) ==> w in OpenStep(t.d.journal, p, s) + [Append(StepCompleted(s))];
    }
    assert Neutral(AfterOpen(t, e, s), other);
  }

  lemma {:induction false} ActOther(st: State, s: StepId, e: Env, other: StepId)
    requires s != other
    ensures forall action :: Neutral(ActOn(st, s, action, e), other)
  {
    ToolNeutral(st, e.tool, other);
    forall action
      ensures Neutral(ActOn(st, s, action, e), other)
    {
    }
  }

  // ---------------------------------------------------------------- a parallel wave

  lemma {:induction false} FoldNeutral(j: Log, p: Plan, chunk: seq<StepId>, ok: set<StepId>, s: StepId)
    requires s !in chunk
    ensures Neutral(FoldChildren(j, p, chunk, ok), s)
  {
    hide HasCheckpoint, IsStarted;
    if chunk != [] {
      assert Neutral(OpenStep(j, p, chunk[0]), s);
      FoldNeutral(j, p, chunk[1..], ok, s);
    }
  }

  /** A step's own part of a fold: opened if it was not, and completed. */
  lemma {:induction false} FoldOneFine(j: Log, now: Log, p: Plan, s: StepId, rest: seq<Write>)
    requires IsStarted(now, s) <==> IsStarted(j, s)
    requires s !in CompletedSteps(now) && Neutral(rest, s)
    ensures Fine(now, OpenStep(j, p, s) + [Append(StepCompleted(s))] + rest, StepRule(s))
  {
    hide OpenStep;
    var open := OpenStep(j, p, s);
    OpenFine(j, now, p, s);
    OneWrite(now + Entries(open), StepCompleted(s), StepRule(s));
    FineConcat(now, open, [Append(StepCompleted(s))], StepRule(s));
    NeutralKeeps(now + Entries(open + [Append(StepCompleted(s))]), rest, s);
    FineConcat(now, open + [Append(StepCompleted(s))], rest, StepRule(s));
  }

  lemma {:induction false} FoldFine(j: Log, now: Log, p: Plan, chunk: seq<StepId>, ok: set<StepId>, s: StepId)
    requires Distinct(chunk)
    requires s in chunk ==> (IsStarted(now, s) <==> IsStarted(j, s)) && s !in CompletedSteps(now)
    ensures Fine(now, FoldChildren(j, p, chunk, ok), StepRule(s))
    decreases |chunk|
  {
    hide OpenStep, IsStarted, CompletedSteps;
    if s !in chunk {
      FoldNeutral(j, p, chunk, ok, s);
      NeutralKeeps(now, FoldChildren(j, p, chunk, ok), s);
    } else if chunk[0] !in ok {
      assert Neutral(FAILING, s);
      NeutralKeeps(now, FAILING, s);
    } else if chunk[0] == s {
      FoldNeutral(j, p, chunk[1..], ok, s);
      FoldOneFine(j, now, p, s, FoldChildren(j, p, chunk[1..], ok));
    } else {
      var first := OpenStep(j, p, chunk[0]) + [Append(StepCompleted(chunk[0]))];
      FirstNeutral(j, p, chunk[0], s);
      NeutralKeeps(now, first, s);
      FoldFine(j, now + Entries(first), p, chunk[1..], ok, s);
      FineConcat(now, first, FoldChildren(j, p, chunk[1..], ok), StepRule(s));
    }
  }

  lemma {:induction false} FirstNeutral(j: Log, p: Plan, s: StepId, other: StepId)
    requires s != other
    ensures Neutral(OpenStep(j, p, s) + [Append(StepCompleted(s))], other)
  {
    hide HasCheckpoint, IsStarted;
    assert Neutral(OpenStep(j, p, s), other);
  }

  lemma {:induction false} WaveNeutral(j: Log, p: Plan, chunks: seq<seq<StepId>>, ok: set<StepId>, s: StepId)
    requires s !in Flatten(chunks)
    ensures Neutral(WaveWrites(j, p, chunks, ok), s)
  {
    if chunks != [] {
      FoldNeutral(j, p, chunks[0], ok, s);
      WaveNeutral(j, p, chunks[1..], ok, s);
    }
  }

  lemma {:induction false} DistinctParts<T>(a: seq<T>, b: seq<T>)
    requires Distinct(a + b)
    ensures Distinct(a) && Distinct(b) && forall x :: x in a ==> x !in b
  {
    forall i, j | 0 <= i < j < |a|
      ensures a[i] != a[j]
    {
      assert (a + b)[i] != (a + b)[j];
    }
    forall i, j | 0 <= i < j < |b|
      ensures b[i] != b[j]
    {
      assert (a + b)[|a| + i] != (a + b)[|a| + j];
    }
    forall x | x in a
      ensures x !in b
    {
      var i :| 0 <= i < |a| && a[i] == x;
      forall k | 0 <= k < |b|
        ensures b[k] != x
      {
        assert (a + b)[i] != (a + b)[|a| + k];
      }
    }
  }

  lemma {:induction false} WaveFine(j: Log, now: Log, p: Plan, chunks: seq<seq<StepId>>, ok: set<StepId>, s: StepId)
    requires Distinct(Flatten(chunks))
    requires s in Flatten(chunks) ==> (IsStarted(now, s) <==> IsStarted(j, s)) && s !in CompletedSteps(now)
    ensures Fine(now, WaveWrites(j, p, chunks, ok), StepRule(s))
    decreases |chunks|
  {
    hide IsStarted, CompletedSteps, FoldChildren;
    if chunks != [] {
      var edits := seq(|chunks[0]|, _ => World(Edited));
      var fold := FoldChildren(j, p, chunks[0], ok);
      var rest := if forall x :: x in chunks[0] ==> x in ok then WaveWrites(j, p, chunks[1..], ok) else [];
      DistinctParts(chunks[0], Flatten(chunks[1..]));
      NeutralKeeps(now, edits, s);
      FoldFine(j, now + Entries(edits), p, chunks[0], ok, s);
      FineConcat(now, edits, fold, StepRule(s));
      var after := now + Entries(edits + fold);
      if s in chunks[0] {
        WaveNeutral(j, p, chunks[1..], ok, s);
        NeutralKeeps(after, rest, s);
      } else {
        FoldNeutral(j, p, chunks[0], ok, s);
        NeutralKeeps(now, edits + fold, s);
        WaveFine(j, after, p, chunks[1..], ok, s);
      }
      FineConcat(now, edits + fold, rest, StepRule(s));
      assert WaveWrites(j, p, chunks, ok) == edits + fold + rest;
    }
  }

  // ---------------------------------------------------------------- groups have no duplicates

  lemma {:induction false} KeepDistinct(s: seq<StepId>, keep: set<StepId>)
    requires Distinct(s)
    ensures Distinct(Keep(s, keep))
  {
    if s != [] {
      assert s == [s[0]] + s[1..];
      DistinctParts([s[0]], s[1..]);
      KeepDistinct(s[1..], keep);
    }
  }

  lemma {:induction false} DropDistinct(s: seq<StepId>, drop: set<StepId>)
    requires Distinct(s)
    ensures Distinct(Drop(s, drop))
  {
    if s != [] {
      assert s == [s[0]] + s[1..];
      DistinctParts([s[0]], s[1..]);
      DropDistinct(s[1..], drop);
    }
  }

  lemma {:induction false} WaveDistinct(waves: seq<seq<StepId>>, s: StepId)
    requires Distinct(Flatten(waves))
    ensures Distinct(WaveOf(waves, s))
  {
    if waves != [] {
      DistinctParts(waves[0], Flatten(waves[1..]));
      WaveDistinct(waves[1..], s);
    }
  }

  lemma {:induction false} DistinctOnce<T>(s: seq<T>)
    ensures Distinct(s) <==> forall x :: multiset(s)[x] <= 1
  {
    if s != [] {
      var head, tail := s[0], s[1..];
      DistinctOnce(tail);
      assert s == [head] + tail;
      if head in tail {
        var k :| 0 <= k < |tail| && tail[k] == head;
        assert s[0] == s[k + 1];
        assert multiset(s)[head] >= 2;
      } else {
        HeadOutside(head, tail);
        if Distinct(tail) {
          assert forall x :: multiset(s)[x] == multiset([head])[x] + multiset(tail)[x];
        } else {
          var x :| multiset(tail)[x] > 1;
          assert multiset(s)[x] > 1;
        }
      }
    }
  }

  lemma {:induction false} HeadOutside<T>(head: T, tail: seq<T>)
    requires head !in tail
    ensures Distinct([head] + tail) <==> Distinct(tail)
  {
    if Distinct([head] + tail) {
      DistinctParts([head], tail);
    }
  }

  lemma {:induction false} GroupDistinct(p: Plan, j: Log, s: StepId)
    ensures var chunks := AllChunks(Batched(p, Incomplete(p, j, s)));
      && Distinct(Flatten(chunks))
      && forall x :: x in Flatten(chunks) ==> x !in CompletedSteps(j)
  {
    hide CompletedSteps;
    WaveDistinct(p.waves, s);
    KeepDistinct(WaveOf(p.waves, s), p.parallel);
    DropDistinct(p.GroupFor(s), CompletedSteps(j));
    var rest := Incomplete(p, j, s);
    EachStepPlacedOnce(p, rest);
    var flat := Flatten(AllChunks(Batched(p, rest)));
    DistinctOnce(rest);
    DistinctOnce(flat);
    forall x | x in flat
      ensures x !in CompletedSteps(j)
    {
      assert x in multiset(flat);
      assert x in rest;
    }
  }

  // ---------------------------------------------------------------- all runs

  lemma {:induction false} PlanStepFine(t: Task, e: Env, p: Plan, s: StepId)
    requires t.d.state.Implementing?
    ensures Fine(t.d.journal, ImplementPlanStep(t, e, p).writes, StepRule(s))
  {
    hide SoloStep, CompletedSteps, WaveWrites, UnprocessedAction, Incomplete, ToolAndStop;
    var j := t.d.journal;
    if ToolInterrupted(j) {
      ToolNeutral(t.d.state, e.tool, s);
      NeutralKeeps(j, ToolAndStop(t.d.state, e.tool), s);
    } else if !e.stillValid {
      assert Neutral(FAILING, s);
      NeutralKeeps(j, FAILING, s);
    } else {
      match p.NextIncomplete(CompletedSteps(j))
      case None =>
        assert Neutral([Goto(Verifying)], s);
        NeutralKeeps(j, [Goto(Verifying)], s);
      case Some(next) =>
        if |Incomplete(p, j, next)| > 1 {
          GroupDistinct(p, j, next);
          WaveFine(j, j, p, AllChunks(Batched(p, Incomplete(p, j, next))), e.childrenOk, s);
        } else if next == s {
          SoloFine(t, e, p, s);
        } else {
          SoloNeutral(t, e, p, next, s);
          NeutralKeeps(j, SoloStep(t, e, p, next), s);
        }
    }
  }

  lemma {:induction false} ToolNeutral(st: State, r: ToolOutcome, s: StepId)
    ensures Neutral(ToolAndStop(st, r), s)
  {
  }

  lemma {:induction false} PassThroughNeutral(t: Task, e: Env, s: StepId)
    requires t.d.state.Implementing?
    ensures Neutral(ImplementStep(t, e).writes, s)
  {
    hide ToolAndStop;
    ToolNeutral(Implementing, e.tool, s);
    match e.reply
    case Unavailable =>
    case Malformed =>
    case Finish =>
    case Ask =>
    case UseTool =>
  }

  lemma {:induction false} ActionFine(t: Task, a: Action, s: StepId)
    ensures Fine(t.d.journal, Do(t, a).writes, StepRule(s))
  {
    hide VerifyStep, DiagnoseStep, RepairStep, ImplementStep, ImplementPlanStep, PlanningRound;
    var ws := Do(t, a).writes;
    if !a.Drive? {
      ClientMay(t, a);
      NeutralKeeps(t.d.journal, ws, s);
    } else if !t.d.state.Implementing? {
      DriveMay(t, a.env);
      NeutralKeeps(t.d.journal, ws, s);
    } else if t.d.plan.Some? {
      PlanStepFine(t, a.env, t.d.plan.value, s);
    } else {
      PassThroughNeutral(t, a.env, s);
      NeutralKeeps(t.d.journal, ws, s);
    }
  }

  lemma {:induction false} DisciplineHolds(events: seq<Event>, s: StepId)
    ensures Obeyed(After(events).d.journal, StepRule(s))
  {
    hide Do;
    forall n | 0 <= n < |events|
      ensures var t := After(events[..n]); Fine(t.d.journal, Do(t, events[n].action).writes, StepRule(s))
    {
      ActionFine(After(events[..n]), events[n].action, s);
    }
    ObeyedAlways(events, StepRule(s));
  }

  /** In every reachable journal, with any number of crashes, each plan step was started at most once,
      completed at most once, and had at most three model calls, none of them after its completion. */
  lemma {:induction false} StepBudgetHolds(events: seq<Event>, s: StepId)
    ensures var j := After(events).d.journal;
      && Starts(j, s) <= 1 && Completions(j, s) <= 1 && Calls(j, s) <= 3
      && forall i, k :: 0 <= i < k < |j| && j[i] == StepCompleted(s) ==> j[k] != ModelCall(StepTurn(s))
  {
    var j := After(events).d.journal;
    DisciplineHolds(events, s);
    DisciplineBounds(j, s);
    forall i, k | 0 <= i < k < |j| && j[i] == StepCompleted(s)
      ensures j[k] != ModelCall(StepTurn(s))
    {
      NoCallAfterCompletion(j, s, i, k);
    }
  }
}
