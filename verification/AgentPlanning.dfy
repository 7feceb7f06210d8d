/** Planning decides each answer of the model exactly once, whatever crashes. */
module AgentPlanning {
  import opened Options
  import opened Journal
  import opened Plans
  import opened Agent
  import opened Discipline

  /** What is in a journal about planning: the answers of the model and the decisions on them. */
  datatype PlanEvent = Answer | Accept | Reject

  function PlanEvents(j: Log): seq<PlanEvent> {
    if j == [] then []
    else
      var before := PlanEvents(j[..|j| - 1]);
      match j[|j| - 1]
      case PlanAnswered(_) => before + [Answer]
      case PlanAccepted => before + [Accept]
      case PlanRejected => before + [Reject]
      case _ => before
  }

  /** Answers and decisions take turns, answers first, and nothing follows an acceptance. */
  predicate TakesTurns(evs: seq<PlanEvent>) {
    && (forall i :: 0 <= i < |evs| ==> (evs[i].Answer? <==> i % 2 == 0))
    && (forall i :: 0 <= i < |evs| && evs[i].Accept? ==> i == |evs| - 1)
  }

  predicate PlanMayFollow(j: Log, e: Entry) {
    match e
    case PlanAnswered(_) =>
      UnprocessedSubmission(j) == None && !HasAcceptedPlan(j) && Rejections(j) < MAX_PLAN_REPAIR_ATTEMPTS
    case PlanAccepted => UnprocessedSubmission(j).Some? && !HasAcceptedPlan(j)
    case PlanRejected => UnprocessedSubmission(j).Some? && !HasAcceptedPlan(j)
    case _ => true
  }

  const PLAN_RULE: Rule := (j: Log, e: Entry) => PlanMayFollow(j, e)

  function Answers(j: Log): nat {
    Count(j, (e: Entry) => e.PlanAnswered?)
  }

  function Acceptances(j: Log): nat {
    Count(j, (e: Entry) => e.PlanAccepted?)
  }

  lemma {:induction false} AcceptedBefore(j: Log)
    requires j != []
    ensures HasAcceptedPlan(j) <==> HasAcceptedPlan(j[..|j| - 1]) || j[|j| - 1] == PlanAccepted
  {
    var before := j[..|j| - 1];
    if HasAcceptedPlan(before) {
      var i :| 0 <= i < |before| && before[i] == PlanAccepted;
      assert j[i] == PlanAccepted;
    }
    assert forall i :: 0 <= i < |before| ==> before[i] == j[i];
  }

  /** Where a journal that obeys the rule stands. */
  predicate Standing(j: Log) {
    && TakesTurns(PlanEvents(j))
    && (|PlanEvents(j)| % 2 == 1 <==> UnprocessedSubmission(j).Some?)
    && (HasAcceptedPlan(j) <==> PlanEvents(j) != [] && PlanEvents(j)[|PlanEvents(j)| - 1].Accept?)
  }

  lemma {:induction false} RuleGivesTurns(j: Log)
    requires Obeyed(j, PLAN_RULE)
    ensures Standing(j)
  {
    hide Rejections;
    if j != [] {
      var before := j[..|j| - 1];
      RuleGivesTurns(before);
      AcceptedBefore(j);
    } else {
      assert PlanEvents(j) == [];
    }
  }

  lemma {:induction false} RuleGivesCounts(j: Log)
    requires Obeyed(j, PLAN_RULE)
    ensures Acceptances(j) == (if HasAcceptedPlan(j) then 1 else 0)
    ensures Answers(j) == Rejections(j) + Acceptances(j) + (if UnprocessedSubmission(j).Some? then 1 else 0)
    ensures Rejections(j) <= MAX_PLAN_REPAIR_ATTEMPTS
    ensures UnprocessedSubmission(j).Some? || HasAcceptedPlan(j) ==> Rejections(j) < MAX_PLAN_REPAIR_ATTEMPTS
  {
    if j != [] {
      RuleGivesCounts(j[..|j| - 1]);
      RuleGivesTurns(j[..|j| - 1]);
      AcceptedBefore(j);
    }
  }

  // ---------------------------------------------------------------- planning keeps the rule

  predicate IsPlanEntry(e: Entry) {
    e.PlanAnswered? || e.PlanAccepted? || e.PlanRejected?
  }

  predicate Unrelated(ws: seq<Write>) {
    forall w :: w in ws ==> !(w.Append? && IsPlanEntry(w.entry))
  }

  lemma {:induction false} UnrelatedKeeps(j: Log, ws: seq<Write>)
    requires Unrelated(ws)
    ensures Fine(j, ws, PLAN_RULE)
    ensures var j' := j + Entries(ws);
      UnprocessedSubmission(j') == UnprocessedSubmission(j) && HasAcceptedPlan(j') == HasAcceptedPlan(j) && Rejections(j') == Rejections(j)
  {
    hide HasAcceptedPlan;
    if ws == [] {
      assert j + Entries(ws) == j;
    } else {
      var before, last := ws[..|ws| - 1], ws[|ws| - 1];
      UnrelatedKeeps(j, before);
      assert last in ws;
      if last.Append? {
        var whole := j + Entries(ws);
        assert whole[..|whole| - 1] == j + Entries(before);
        AcceptedBefore(whole);
      } else {
        assert Entries(ws) == Entries(before);
      }
    }
  }

  /** The writes that ask the model, when nothing is stored. */
  lemma {:induction false} AskFine(j: Log, submission: Option<string>)
    requires UnprocessedSubmission(j) == None && !HasAcceptedPlan(j) && Rejections(j) < MAX_PLAN_REPAIR_ATTEMPTS
    ensures var ask := [Append(ModelCall(PlanTurn)), Append(PlanAnswered(submission))];
      && Fine(j, ask, PLAN_RULE)
      && UnprocessedSubmission(j + Entries(ask)) == Some(submission) && !HasAcceptedPlan(j + Entries(ask))
      && Rejections(j + Entries(ask)) == Rejections(j)
  {
    var call, answer := [Append(ModelCall(PlanTurn))], PlanAnswered(submission);
    UnrelatedKeeps(j, call);
    var mid := j + Entries(call);
    OneWrite(mid, answer, PLAN_RULE);
    FineConcat(j, call, [Append(answer)], PLAN_RULE);
    EntriesConcat(call, [Append(answer)]);
    assert call + [Append(answer)] == [Append(ModelCall(PlanTurn)), Append(answer)];
    var whole := mid + [answer];
    assert j + Entries(call + [Append(answer)]) == whole;
    assert whole[..|whole| - 1] == mid;
    AcceptedBefore(whole);
  }

  /** A decision, with what follows it. */
  lemma {:induction false} DecideFine(j: Log, pre: seq<Write>, e: Entry, post: seq<Write>)
    requires UnprocessedSubmission(j).Some? && !HasAcceptedPlan(j)
    requires e.PlanAccepted? || e.PlanRejected?
    requires Unrelated(pre) && Unrelated(post)
    ensures Fine(j, pre + [Append(e)] + post, PLAN_RULE)
  {
    UnrelatedKeeps(j, pre);
    OneWrite(j + Entries(pre), e, PLAN_RULE);
    FineConcat(j, pre, [Append(e)], PLAN_RULE);
    UnrelatedKeeps(j + Entries(pre + [Append(e)]), post);
    FineConcat(j, pre + [Append(e)], post, PLAN_RULE);
  }

  function Ask(t: Task, e: Env): seq<Write> {
    if UnprocessedSubmission(t.d.journal) == None then [Append(ModelCall(PlanTurn)), Append(PlanAnswered(e.submission))]
    else []
  }

  function Verdict(t: Task, e: Env): Option<Plan> {
    var stored := UnprocessedSubmission(t.d.journal);
    SubmittedPlan(if stored == None then e.submission else stored.value, e)
  }

  function DecisionOn(t: Task, e: Env): seq<Write> {
    match Verdict(t, e)
    case Some(p) => [SavePlan(p)] + [Append(PlanAccepted)] + [Goto(Implementing)]
    case None => [] + [Append(PlanRejected)]
                 + (if Rejections(t.d.journal) + 1 >= MAX_PLAN_REPAIR_ATTEMPTS then FAILING else [])
  }

  /** A round that gets as far as a decision asks first, if nothing is stored, and then decides. */
  predicate Decides(t: Task, e: Env) {
    && !HasAcceptedPlan(t.d.journal) && Rejections(t.d.journal) < MAX_PLAN_REPAIR_ATTEMPTS
    && (UnprocessedSubmission(t.d.journal).Some? || !(e.reply.Unavailable? || e.reply.Malformed?))
  }

  lemma {:induction false} RoundShape(t: Task, e: Env)
    ensures Decides(t, e) ==> PlanningRound(t, e).writes == Ask(t, e) + DecisionOn(t, e)
    ensures !Decides(t, e) ==> Unrelated(PlanningRound(t, e).writes)
  {
    hide UnprocessedSubmission, HasAcceptedPlan, Rejections;
    if Decides(t, e) {
      match Verdict(t, e)
      case Some(p) => assert PlanningRound(t, e).writes == Ask(t, e) + DecisionOn(t, e);
      case None => assert PlanningRound(t, e).writes == Ask(t, e) + DecisionOn(t, e);
    }
  }

  lemma {:induction false} RoundFine(t: Task, e: Env)
    ensures Fine(t.d.journal, PlanningRound(t, e).writes, PLAN_RULE)
  {
    hide PlanningRound, UnprocessedSubmission, HasAcceptedPlan, Rejections;
    var j := t.d.journal;
    RoundShape(t, e);
    if !Decides(t, e) {
      UnrelatedKeeps(j, PlanningRound(t, e).writes);
    } else {
      if UnprocessedSubmission(j) == None {
        AskFine(j, e.submission);
      } else {
        assert Ask(t, e) == [] && j + Entries([]) == j;
      }
      var now := j + Entries(Ask(t, e));
      match Verdict(t, e) {
        case Some(p) => DecideFine(now, [SavePlan(p)], PlanAccepted, [Goto(Implementing)]);
        case None =>
          var tail := if Rejections(j) + 1 >= MAX_PLAN_REPAIR_ATTEMPTS then FAILING else [];
          DecideFine(now, [], PlanRejected, tail);
      }
      FineConcat(j, Ask(t, e), DecisionOn(t, e), PLAN_RULE);
    }
  }

  lemma {:induction false} ActionFine(t: Task, a: Action)
    ensures Fine(t.d.journal, Do(t, a).writes, PLAN_RULE)
  {
    hide VerifyStep, DiagnoseStep, RepairStep, ImplementStep, ImplementPlanStep, PlanningRound;
    var ws := Do(t, a).writes;
    if !a.Drive? {
      ClientMay(t, a);
      UnrelatedKeeps(t.d.journal, ws);
    } else if !t.d.state.Planning? {
      DriveMay(t, a.env);
      UnrelatedKeeps(t.d.journal, ws);
    } else if a.env.modelAuthored {
      RoundFine(t, a.env);
    } else {
      assert Unrelated(ws);
      UnrelatedKeeps(t.d.journal, ws);
    }
  }

  /** In every reachable journal, with any number of crashes, the answers of the planning model and the
      decisions on them alternate - each answer is decided exactly once, and only a decided answer is
      followed by another - nothing follows an acceptance, and there are at most three rejections and
      at most three answers. */
  lemma {:induction false} PlanningDecidesOnce(events: seq<Event>)
    ensures var j := After(events).d.journal;
      && TakesTurns(PlanEvents(j))
      && Rejections(j) <= 3
      && Answers(j) <= 3
      && Acceptances(j) <= 1
  {
    hide After, Rejections, Answers, Acceptances, PlanEvents, Obeyed;
    PlanRuleHolds(events);
    RuleGivesTurns(After(events).d.journal);
    RuleGivesCounts(After(events).d.journal);
  }

  lemma {:induction false} PlanRuleHolds(events: seq<Event>)
    ensures Obeyed(After(events).d.journal, PLAN_RULE)
  {
    hide Do, Fine, Obeyed, After;
    forall n | 0 <= n < |events|
      ensures var t := After(events[..n]); Fine(t.d.journal, Do(t, events[n].action).writes, PLAN_RULE)
    {
      ActionFine(After(events[..n]), events[n].action);
    }
    ObeyedAlways(events, PLAN_RULE);
  }

  // ---------------------------------------------------------------- restarts

  /** A crash between the model's answer and the decision on it loses nothing: the next round asks
      nothing, and decides the stored submission. */
  lemma {:induction false} RestartRedecides(t: Task, e: Env, e': Env)
    requires t.d.state.Planning? && e.modelAuthored && e'.modelAuthored
    requires Decides(t, e) && UnprocessedSubmission(t.d.journal) == None
    ensures var t' := Step(t, Crash(Drive(e), 2));
      && t'.d.state.Planning?
      && Do(t', Drive(e')).writes == DecisionOn(t', e')
      && Verdict(t', e') == SubmittedPlan(e.submission, e')
  {
    hide PlanningRound, UnprocessedSubmission, HasAcceptedPlan, Rejections;
    RoundShape(t, e);
    var ask := Ask(t, e);
    var ws := PlanningRound(t, e).writes;
    assert ws == ask + DecisionOn(t, e) && |ask| == 2;
    assert ws[..2] == ask;
    AskFine(t.d.journal, e.submission);
    JournalAfter(t.d, ask);
    StateAfter(t.d, ask, 0);
    var t' := Step(t, Crash(Drive(e), 2));
    RoundShape(t', e');
    assert Ask(t', e') == [];
  }
}
