/** The driver itself: a mutable object over the task's durable state. Its methods append to the
    journal, change the state and keep the remembered verify state; each is proved to make exactly the
    writes of the step machine, in their order. `written` is the history of those writes, so a crash
    between any two of them leaves a prefix of it. */
module AgentDriver {
  import opened Options
  import opened LoopDetect
  import R = Repair
  import opened Journal
  import opened Plans
  import opened Sequences
  import opened Agent
  import opened AgentTermination
  import P = AgentPlanSteps

  import L = AgentPlanLoop

  method CompletedPlanSteps(j: Log) returns (done: set<StepId>)
    ensures done == CompletedSteps(j)
  {
    done := {};
    for i := 0 to |j|
      invariant done == CompletedSteps(j[..i])
    {
      P.KnownBefore(j[..i + 1], "");
      assert j[..i + 1][..i] == j[..i];
      if j[i].StepCompleted? {
        done := done + {j[i].step};
      }
    }
    assert j[..|j|] == j;
  }

  /** Opening a step changes neither its stored action nor how another step would be opened. */
  lemma {:induction false} OpenKeepsAction(j: Log, p: Plan, s: StepId)
    ensures UnprocessedAction(j + Entries(OpenStep(j, p, s)), s) == UnprocessedAction(j, s)
  {
    hide HasCheckpoint, IsStarted, Entries, UnprocessedAction;
    EntriesIn(OpenStep(j, p, s));
    ActionKept(j, Entries(OpenStep(j, p, s)), s);
  }

  lemma {:induction false} OpenEntries(j: Log, p: Plan, s: StepId)
    ensures Entries(OpenStep(j, p, s)) ==
      (if s in p.checkpoints && !HasCheckpoint(j, s) then [Checkpoint(s)] else [])
      + (if !IsStarted(j, s) then [StepStarted(s)] else [])
  {
    hide HasCheckpoint, IsStarted;
    EntriesFew(Append(Checkpoint(s)), Append(StepStarted(s)));
    EntriesFew(Append(StepStarted(s)), Append(StepStarted(s)));
  }

  lemma {:induction false} StartUnaffected(j: Log, s: StepId)
    ensures IsStarted(j + [Checkpoint(s)], s) == IsStarted(j, s)
  {
    P.KnownBefore(j + [Checkpoint(s)], s);
    assert (j + [Checkpoint(s)])[..|j|] == j;
  }

  lemma {:induction false} ActionKept(j: Log, more: Log, s: StepId)
    requires forall e :: e in more ==> e.Checkpoint? || e.StepStarted?
    ensures UnprocessedAction(j + more, s) == UnprocessedAction(j, s)
  {
    if more == [] {
      assert j + more == j;
    } else {
      var before := more[..|more| - 1];
      ActionKept(j, before, s);
      assert (j + more)[..|j + more| - 1] == j + before;
      assert more[|more| - 1] in more;
    }
  }

  lemma {:induction false} OnlyOpens(j: Log, p: Plan, s: StepId, x: StepId)
    requires x != s
    ensures Checkpoint(x) !in Entries(OpenStep(j, p, s)) && StepStarted(x) !in Entries(OpenStep(j, p, s))
  {
    hide HasCheckpoint, IsStarted, Entries;
    EntriesIn(OpenStep(j, p, s));
    assert Append(Checkpoint(x)) !in OpenStep(j, p, s) && Append(StepStarted(x)) !in OpenStep(j, p, s);
  }

  lemma {:induction false} OthersStayOpen(j: Log, p: Plan, s: StepId, x: StepId)
    requires x != s
    ensures OpenStep(j + Entries(OpenStep(j, p, s)) + [StepCompleted(s)], p, x) == OpenStep(j, p, x)
  {
    hide HasCheckpoint, IsStarted, Entries;
    var more := Entries(OpenStep(j, p, s)) + [StepCompleted(s)];
    OnlyOpens(j, p, s, x);
    SameOpening(j, more, x);
    assert j + Entries(OpenStep(j, p, s)) + [StepCompleted(s)] == j + more;
  }

  lemma {:induction false} SameOpening(j: Log, more: Log, x: StepId)
    requires Checkpoint(x) !in more && StepStarted(x) !in more
    ensures HasCheckpoint(j + more, x) == HasCheckpoint(j, x) && IsStarted(j + more, x) == IsStarted(j, x)
  {
    var j' := j + more;
    if i :| 0 <= i < |j| && j[i] == Checkpoint(x) {
      assert j'[i] == Checkpoint(x);
    }
    if i :| 0 <= i < |j| && j[i] == StepStarted(x) {
      assert j'[i] == StepStarted(x);
    }
    assert forall i :: 0 <= i < |j'| ==> (i < |j| && j'[i] == j[i]) || j'[i] in more;
  }

  lemma {:induction false} FoldNone(j: Log, p: Plan, chunk: seq<StepId>, ok: set<StepId>)
    requires chunk == []
    ensures FoldChildren(j, p, chunk, ok) == []
  {
  }

  lemma {:induction false} FoldFirst(j: Log, p: Plan, s: StepId, more: seq<StepId>, ok: set<StepId>)
    ensures FoldChildren(j, p, [s] + more, ok) ==
      if s !in ok then FAILING
      else OpenStep(j, p, s) + [Append(StepCompleted(s))] + FoldChildren(j, p, more, ok)
  {
    assert ([s] + more)[1..] == more;
  }

  lemma {:induction false} FirstChunk(rest: seq<StepId>)
    requires rest != []
    ensures var n := if |rest| <= MAX_PARALLEL_CHILDREN then |rest| else MAX_PARALLEL_CHILDREN;
      Chunks(rest) == [rest[..n]] + Chunks(rest[n..])
  {
  }

  lemma {:induction false} FlattenFirst(first: seq<StepId>, later: seq<seq<StepId>>)
    ensures Flatten([first] + later) == first + Flatten(later)
    ensures AllChunks([first] + later) == Chunks(first) + AllChunks(later)
  {
    assert ([first] + later)[1..] == later;
  }

  method CountRejections(j: Log) returns (n: nat)
    ensures n == Rejections(j)
  {
    n := 0;
    for i := 0 to |j|
      invariant n == Rejections(j[..i])
    {
      assert j[..i + 1][..i] == j[..i];
      if j[i].PlanRejected? {
        n := n + 1;
      }
    }
    assert j[..|j|] == j;
  }

  /** A round that rejects the submission counts once and accepts nothing. */
  lemma {:induction false} RejectionCounted(j: Log, asked: Log)
    requires asked == [] || exists s :: asked == [ModelCall(PlanTurn), PlanAnswered(s)]
    requires !HasAcceptedPlan(j)
    ensures var j' := j + asked + [PlanRejected]; Rejections(j') == Rejections(j) + 1 && !HasAcceptedPlan(j')
  {
    var rejection := (e: Entry) => e.PlanRejected?;
    CountConcat(j, asked, rejection);
    CountConcat(j + asked, [PlanRejected], rejection);
    CountZero(asked, rejection);
    assert Count([PlanRejected], rejection) == 1;
    var j' := j + asked + [PlanRejected];
    assert forall i :: 0 <= i < |j'| ==> (i < |j| && j'[i] == j[i]) || j'[i] == PlanRejected || j'[i] in asked;
  }

  /** The writes of a planning round, made after `n` rounds, end the next one. */
  lemma {:induction false} RoundEnds(start: Durable, before: seq<Write>, now: seq<Write>, t: Task, envs: nat -> Env, n: nat)
    requires var cur := Driven(t, envs, n);
      && ApplyAll(start, before) == cur.d && cur.d.state.Planning? && envs(n).modelAuthored
      && now == before + PlanningRound(cur, envs(n)).writes
    ensures var cur := Driven(t, envs, n);
      Driven(t, envs, n + 1) == Task(ApplyAll(start, now), cur.mem, cur.fed)
  {
    var cur := Driven(t, envs, n);
    ApplyConcat(start, before, PlanningRound(cur, envs(n)).writes);
    assert Driven(t, envs, n + 1) == Step(cur, Run(Drive(envs(n))));
    PlanningKeepsMemory(cur, envs(n));
  }

  lemma {:induction false} WorkingMayFail(s: State)
    requires !s.Stable()
    ensures s.CanTransitionTo(Failed) && !s.Paused?
  {
  }

  lemma {:induction false} LegalMove(s: State, to: State)
    requires s.CanTransitionTo(to)
    ensures !s.Terminal() && !(s.Paused? && to.Paused?)
  {
  }

  lemma {:induction false} ApplyNone(d: Durable)
    ensures ApplyAll(d, []) == d
  {
  }

  lemma {:induction false} DrivenOnce(t: Task, envs: nat -> Env)
    ensures Driven(t, envs, 1) == Step(t, Run(Drive(envs(0))))
  {
    assert Driven(t, envs, 0) == t;
  }

  lemma {:induction false} DrivenNone(t: Task, envs: nat -> Env)
    ensures Driven(t, envs, 0) == t
  {
  }

  /** A round that needs no submission. */
  lemma {:induction false} RoundWithoutAnswer(t: Task, e: Env)
    ensures HasAcceptedPlan(t.d.journal) ==> PlanningRound(t, e).writes == [Goto(Implementing)]
    ensures !HasAcceptedPlan(t.d.journal) && Rejections(t.d.journal) >= MAX_PLAN_REPAIR_ATTEMPTS ==>
      PlanningRound(t, e).writes == FAILING
  {
    hide HasAcceptedPlan, Rejections, UnprocessedSubmission;
  }

  lemma {:induction false} PlanningKeepsMemory(t: Task, e: Env)
    ensures PlanningRound(t, e).mem == t.mem && PlanningRound(t, e).fed == t.fed
  {
  }

  lemma {:induction false} OneMore(d: Durable, ws: seq<Write>, w: Write)
    ensures ApplyAll(d, ws + [w]) == Apply(ApplyAll(d, ws), w)
  {
    assert (ws + [w])[..|ws|] == ws;
  }

  lemma {:induction false} WaveEmpty(j: Log, p: Plan, ok: set<StepId>)
    ensures WaveWrites(j, p, [], ok) == []
    ensures WaveWrites(j, p, AllChunks([]), ok) == [] && WaveWrites(j, p, Chunks([]), ok) == []
    ensures AllOk([], ok)
  {
  }

  predicate AllOk(steps: seq<StepId>, ok: set<StepId>) {
    forall s :: s in steps ==> s in ok
  }

  lemma {:induction false} OkParts(a: seq<StepId>, b: seq<StepId>, c: seq<StepId>, ok: set<StepId>)
    ensures AllOk(a + b + c, ok) <==> AllOk(a, ok) && AllOk(b, ok) && AllOk(c, ok)
    ensures AllOk(a + b, ok) <==> AllOk(a, ok) && AllOk(b, ok)
  {
    assert forall s :: s in a + b <==> s in a || s in b;
    assert forall s :: s in a + b + c <==> s in a + b || s in c;
  }

  /** What one chunk writes. */
  function ChunkWrites(j: Log, p: Plan, chunk: seq<StepId>, ok: set<StepId>): seq<Write> {
    seq(|chunk|, _ => World(Edited)) + FoldChildren(j, p, chunk, ok)
  }

  lemma {:induction false} WaveFirst(j: Log, p: Plan, chunk: seq<StepId>, more: seq<seq<StepId>>, ok: set<StepId>)
    ensures WaveWrites(j, p, [chunk] + more, ok) ==
      ChunkWrites(j, p, chunk, ok) + (if AllOk(chunk, ok) then WaveWrites(j, p, more, ok) else [])
  {
    assert ([chunk] + more)[1..] == more;
  }

  /** A wave goes on to its later chunks if and only if every child of the earlier ones completed. */
  lemma {:induction false} WaveConcat(j: Log, p: Plan, a: seq<seq<StepId>>, b: seq<seq<StepId>>, ok: set<StepId>)
    ensures WaveWrites(j, p, a + b, ok) ==
      WaveWrites(j, p, a, ok) + (if AllOk(Flatten(a), ok) then WaveWrites(j, p, b, ok) else [])
  {
    hide ChunkWrites, WaveWrites, Flatten, AllOk;
    if a == [] {
      assert a + b == b;
      WaveEmpty(j, p, ok);
    } else {
      assert a + b == [a[0]] + (a[1..] + b) && a == [a[0]] + a[1..];
      WaveFirst(j, p, a[0], a[1..] + b, ok);
      WaveFirst(j, p, a[0], a[1..], ok);
      WaveConcat(j, p, a[1..], b, ok);
      FlattenFirst(a[0], a[1..]);
      OkParts(a[0], Flatten(a[1..]), [], ok);
    }
  }

  /** The steps of `xs` would be opened now as they would have been when the journal was `j`. */
  ghost predicate StillUnopened(p: Plan, j: Log, now: Log, xs: seq<StepId>) {
    forall x :: x in xs ==> OpenStep(now, p, x) == OpenStep(j, p, x)
  }

  ghost predicate SameElsewhere(p: Plan, before: Log, now: Log, xs: seq<StepId>) {
    forall x :: x !in xs ==> OpenStep(now, p, x) == OpenStep(before, p, x)
  }

  lemma {:induction false} NothingElsewhere(p: Plan, j: Log)
    ensures SameElsewhere(p, j, j, [])
  {
  }

  lemma {:induction false} NothingOpened(p: Plan, j: Log, xs: seq<StepId>)
    ensures StillUnopened(p, j, j, xs)
  {
  }

  lemma {:induction false} UnopenedParts(p: Plan, j: Log, now: Log, a: seq<StepId>, b: seq<StepId>)
    requires StillUnopened(p, j, now, a + b)
    ensures StillUnopened(p, j, now, a) && StillUnopened(p, j, now, b)
  {
    hide OpenStep;
    assert forall x :: x in a || x in b ==> x in a + b;
  }

  lemma {:induction false} OthersUnopened(p: Plan, j: Log, before: Log, now: Log, a: seq<StepId>, b: seq<StepId>)
    requires StillUnopened(p, j, before, b) && SameElsewhere(p, before, now, a)
    requires forall x :: x in a ==> x !in b
    ensures StillUnopened(p, j, now, b)
  {
    hide OpenStep;
  }

  lemma {:induction false} ElsewhereJoins(p: Plan, first: Log, before: Log, now: Log, a: seq<StepId>, b: seq<StepId>)
    requires SameElsewhere(p, first, before, a) && SameElsewhere(p, before, now, b)
    ensures SameElsewhere(p, first, now, a + b)
  {
    hide OpenStep;
    assert forall x :: x !in a + b ==> x !in a && x !in b;
  }

  class Driver {
    var journal: Log
    var state: State
    var pausedFrom: Option<State>
    var plan: Option<Plan>
    var memory: Option<VerifyState>
    ghost var world: seq<WorldEvent>
    ghost var fed: seq<Observation>
    ghost var written: seq<Write>
    ghost const start: Durable

    ghost function Durable(): Durable
      reads this`journal, this`state, this`pausedFrom, this`plan, this`world
    {
      Agent.Durable(journal, state, pausedFrom, plan, world)
    }

    ghost function AsTask(): Task
      reads this
    {
      Task(Durable(), memory, fed)
    }

    ghost predicate Valid()
      reads this`journal, this`state, this`pausedFrom, this`plan, this`world, this`written
    {
      && Durable() == ApplyAll(start, written)
      && (pausedFrom.Some? ==> !pausedFrom.value.Terminal() && !pausedFrom.value.Paused?)
    }

    /** What a handler reads of the task is what `t` says. */
    ghost predicate Shows(t: Task)
      reads this
    {
      journal == t.d.journal && state == t.d.state && plan == t.d.plan && memory == t.mem && fed == t.fed
    }

    predicate Working()
      reads this
    {
      !state.Stable()
    }

    /** The handler did what `eff` says, up to the two writes the application makes when it returned an
        error. */
    twostate predicate Did(eff: Effect, ok: bool)
      reads this
    {
      && written + (if ok then [] else FAILING) == old(written) + eff.writes
      && memory == eff.mem && fed == eff.fed
      && (!ok ==> state.CanTransitionTo(Failed) && !state.Paused?)
    }

    /** A process opened on the durable state another one left. */
    constructor (journal: Log, state: State, pausedFrom: Option<State>, plan: Option<Plan>, ghost world: seq<WorldEvent>)
      requires pausedFrom.Some? ==> !pausedFrom.value.Terminal() && !pausedFrom.value.Paused?
      ensures Valid() && written == []
      ensures AsTask() == Task(Agent.Durable(journal, state, pausedFrom, plan, world), None, [])
    {
      this.journal, this.state, this.pausedFrom, this.plan, memory := journal, state, pausedFrom, plan, None;
      this.world, fed, written := world, [], [];
      start := Agent.Durable(journal, state, pausedFrom, plan, world);
    }

    // -------------------------------------------------------------- the durable writes

    method AppendJournal(e: Entry)
      requires Valid()
      modifies this`journal, this`written
      ensures Valid() && written == old(written) + [Append(e)]
      ensures journal == old(journal) + [e]
    {
      hide ApplyAll, State.CanTransitionTo;
      journal := journal + [e];
      written := written + [Append(e)];
      OneMore(start, old(written), Append(e));
    }

    /** A transition, which the task manager makes only if its table allows it. */
    method Transition(to: State)
      requires Valid()
      requires state.CanTransitionTo(to) && (state.Paused? ==> pausedFrom == Some(to))
      modifies this`state, this`pausedFrom, this`written
      ensures Valid() && written == old(written) + [Goto(to)]
      ensures state == to && pausedFrom == if to.Paused? then Some(old(state)) else None
    {
      hide ApplyAll, State.CanTransitionTo;
      LegalMove(state, to);
      pausedFrom := if to.Paused? then Some(state) else None;
      state := to;
      written := written + [Goto(to)];
      OneMore(start, old(written), Goto(to));
    }

    method SaveRevision(p: Plan)
      requires Valid()
      modifies this`plan, this`written
      ensures Valid() && written == old(written) + [SavePlan(p)]
    {
      hide ApplyAll, State.CanTransitionTo;
      plan := Some(p);
      written := written + [SavePlan(p)];
      OneMore(start, old(written), SavePlan(p));
    }

    ghost method Happened(event: WorldEvent)
      requires Valid()
      modifies this`world, this`written
      ensures Valid() && written == old(written) + [World(event)]
    {
      hide ApplyAll, State.CanTransitionTo;
      world := world + [event];
      written := written + [World(event)];
      OneMore(start, old(written), World(event));
    }

    // -------------------------------------------------------------- the remembered verify state

    method TakeVerifyState(ghost t: Task) returns (vs: VerifyState)
      requires Shows(t)
      modifies this`memory, this`fed
      ensures vs == Take(t)
      ensures memory == Some(vs) && fed == TakeFed(t)
    {
      if memory.Some? {
        return memory.value;
      }
      var detector, ledger := ReconstructVerifyState(journal, MAX_REPAIR_ATTEMPTS);
      vs := VerifyState(detector, ledger, None, 0, false, 0, None, false, false, {});
      memory, fed := Some(vs), Observations(journal);
    }

    method PutVerifyState(vs: VerifyState)
      modifies this`memory
      ensures memory == Some(vs)
    {
      memory := Some(vs);
    }

    // -------------------------------------------------------------- tool calls

    method IssueAndExecute(outcome: ToolOutcome) returns (ok: bool)
      requires Valid() && Working()
      modifies this`journal, this`state, this`pausedFrom, this`world, this`written
      ensures Valid()
      ensures written == old(written) + ToolWrites(old(state), outcome)
      ensures ok == ToolReturns(old(state), outcome)
      ensures !ok ==> state == old(state)
      ensures match outcome
              case AskRequired => state == if ok then WaitingForPermission else old(state)
              case Denied => state == Failed
              case _ => state == old(state)
    {
      hide Valid, State.CanTransitionTo;
      WorkingMayFail(state);
      AppendJournal(ToolIssued);
      match outcome
      case Executed =>
        Happened(Edited);
        AppendJournal(ToolResult);
        ok := true;
      case AskRequired =>
        AppendJournal(PermissionAsk);
        ok := state.CanTransitionTo(WaitingForPermission);
        if ok {
          Transition(WaitingForPermission);
        }
      case Denied =>
        AppendJournal(ToolDenied);
        Transition(Failed);
        ok := true;
      case UnknownTool =>
        ok := false;
    }

    // -------------------------------------------------------------- verify, diagnose, repair

    method StepVerifying(e: Env, ghost t: Task) returns (ok: bool)
      requires Valid() && Shows(t) && state.Verifying?
      modifies this
      ensures Valid() && Did(VerifyStep(t, e), ok)
    {
      hide Valid, Take, TakeFed, FailureObserved;
      var vs := TakeVerifyState(t);
      if vs.plan == None {
        if e.checks == [] {
          PutVerifyState(vs);
          Transition(Completed);
          return true;
        }
        vs := vs.(plan := Some(e.checks), executed := 0, lastPassed := true);
      }
      var next := NextAfter(vs.plan.value, vs.executed, vs.lastPassed);
      if next == None {
        if !vs.lastPassed {
          PutVerifyState(vs);
          Transition(Diagnosing);
        } else {
          Happened(Earned(vs.plan.value));
          PutVerifyState(vs);
          Transition(Completed);
        }
        return true;
      }
      ok := RunCheck(vs, next.value, e.run);
    }

    /** Run one check and remember its outcome. */
    method RunCheck(vs0: VerifyState, check: Check, run: CheckRun) returns (ok: bool)
      requires Valid() && state.Verifying?
      modifies this
      ensures Valid() && ok == !run.RunnerError?
      ensures match run
              case RunnerError =>
                && written == old(written) + [Append(VerifyIssued(check))]
                && memory == old(memory) && fed == old(fed) && state == old(state)
              case Passes =>
                && written == old(written) + [Append(VerifyIssued(check)), World(Ran(check, true)), Append(VerifyResult(check, true))]
                && memory == Some(vs0.(executed := vs0.executed + 1, lastPassed := true, lastFailures := 0,
                                       detector := FailureObserved(vs0.detector, None).0))
                && fed == old(fed) + [Passed]
              case Fails(n) =>
                && written == old(written) + [Append(VerifyIssued(check)), World(Ran(check, false)),
                                              Append(VerifyResult(check, false)), Goto(Diagnosing)]
                && memory == Some(vs0.(executed := vs0.executed + 1, lastPassed := false, lastFailures := n))
                && fed == old(fed)
    {
      hide Valid, FailureObserved;
      var vs := vs0;
      AppendJournal(VerifyIssued(check));
      if run.RunnerError? {
        return false;
      }
      Happened(Ran(check, run.Passes?));
      AppendJournal(VerifyResult(check, run.Passes?));
      vs := vs.(executed := vs.executed + 1, lastPassed := run.Passes?,
                lastFailures := if run.Fails? then run.failures else 0);
      ok := true;
      if run.Passes? {
        var detector := new LoopDetector(vs.detector);
        var _ := detector.ObserveFailure(None);
        vs := vs.(detector := detector.Value());
        fed := fed + [Passed];
        PutVerifyState(vs);
      } else {
        PutVerifyState(vs);
        Transition(Diagnosing);
      }
    }

    method StepDiagnosing(e: Env, ghost t: Task)
      requires Valid() && Shows(t) && state.Diagnosing?
      modifies this
      ensures Valid() && Did(DiagnoseStep(t, e), true)
    {
      hide Valid, Take, TakeFed, Observe;
      var vs := TakeVerifyState(t);
      vs := vs.(touched := vs.touched + e.changed);
      var metric := Metric(vs.executed, vs.lastFailures, vs.touched);
      AppendJournal(Diagnosed(e.fingerprint, e.fileState, metric));
      var finding;
      vs, finding := ObserveCycle(vs, e.fingerprint, e.fileState, metric);
      assert finding == DiagnosisFinding(t, e);
      var decision := Decide(vs, e.fingerprint, finding);
      AppendJournal(Decided(decision));
      assert written == old(written) + DiagnosisEntries(t, e);
      FollowDecision(vs.(pending := Some(e.fingerprint)), decision);
    }

    method ObserveCycle(vs0: VerifyState, fp: Fingerprint, fileState: Hash, metric: Metric)
      returns (vs: VerifyState, finding: Option<Finding>)
      requires Valid()
      modifies this`journal, this`written, this`fed
      ensures Valid()
      ensures (vs, finding) == (vs0.(detector := Observe(vs0.detector, Cycle(fp, fileState, metric)).0),
                                Observe(vs0.detector, Cycle(fp, fileState, metric)).1)
      ensures written == old(written) + if finding.Some? then [Append(LoopDetected(finding.value))] else []
      ensures fed == old(fed) + [Cycle(fp, fileState, metric)]
    {
      hide Valid, Observe;
      var detector := new LoopDetector(vs0.detector);
      finding := ObserveDiagnosis(detector, fp, fileState, metric);
      vs := vs0.(detector := detector.Value());
      fed := fed + [Cycle(fp, fileState, metric)];
      if finding.Some? {
        AppendJournal(LoopDetected(finding.value));
      }
    }

    method Decide(vs: VerifyState, fp: Fingerprint, finding: Option<Finding>) returns (decision: R.Decision)
      ensures decision == vs.repair.Decide(fp, finding)
    {
      var ledger := new R.RepairLedger(vs.repair);
      decision := ledger.Decide(fp, finding);
    }

    method FollowDecision(vs0: VerifyState, decision: R.Decision)
      requires Valid() && state.Diagnosing?
      modifies this`journal, this`state, this`pausedFrom, this`memory, this`written
      ensures Valid() && written == old(written) + DecisionWrites(decision)
      ensures memory == if decision.GiveUp? then None else Some(AfterDecision(vs0, decision))
    {
      hide Valid;
      var vs := vs0;
      var ledger := new R.RepairLedger(vs.repair);
      match decision
      case Continue =>
        PutVerifyState(vs);
        Transition(Repairing);
      case EscalateStrategy =>
        ledger.MarkEscalated();
        vs := vs.(repair := ledger.Value(), broaden := true, plan := None);
        PutVerifyState(vs);
        Transition(Repairing);
      case SwitchRole =>
        ledger.MarkSwitchedRole();
        vs := vs.(repair := ledger.Value(), rolePrimary := true, plan := None);
        PutVerifyState(vs);
        Transition(Repairing);
      case AskUser =>
        AppendJournal(RecoveryNote);
        PutVerifyState(vs);
        Transition(WaitingForUser);
      case GiveUp =>
        AppendJournal(RecoveryNote);
        memory := None;
        Transition(Failed);
    }

    method StepRepairing(e: Env, ghost t: Task) returns (ok: bool)
      requires Valid() && Shows(t) && state.Repairing?
      modifies this
      ensures Valid() && Did(RepairStep(t, e), ok)
    {
      hide Valid, Take, TakeFed, AttemptFor, AfterRepairTurn, LastTool, RepairOpening;
      if ToolInterrupted(journal) {
        ok := IssueAndExecute(e.tool);
        if ok && state.Repairing? {
          Transition(Verifying);
        }
        return;
      }
      var vs := TakeVerifyState(t);
      ok := RepairTurn(e);
      if ok {
        assert written == old(written) + RepairOpening(e);
        ok := RecordAttempt(vs, e);
      }
    }

    /** One model turn of a repair, up to the point where its attempt is recorded. */
    method RepairTurn(e: Env) returns (ok: bool)
      requires Valid() && state.Repairing?
      modifies this`journal, this`state, this`pausedFrom, this`world, this`written
      ensures Valid() && ok == RepairRecords(e)
      ensures written + (if ok then [] else FAILING) == old(written) + RepairOpening(e)
      ensures state == if e.reply.UseTool? && e.tool.Denied? then Failed else Repairing
    {
      hide Valid, ToolWrites;
      AppendJournal(ModelCall(Phase.RepairTurn));
      AppendJournal(ContextRetrieved);
      if e.reply.Unavailable? {
        return false;
      }
      AppendJournal(ModelAnswered(Phase.RepairTurn));
      if e.reply.Malformed? {
        return false;
      }
      ok := true;
      if e.reply.UseTool? {
        ok := IssueAndExecute(e.tool);
      }
    }

    /** The plan is dropped, to verify again from the first check, and the detector sees the new files. */
    method Restarted(vs0: VerifyState, fileState: Hash) returns (vs: VerifyState)
      ensures vs == vs0.(plan := None, executed := 0, lastPassed := true,
                         detector := Observe(vs0.detector, AfterRepair(fileState)).0)
    {
      hide StepObserved;
      var detector := new LoopDetector(vs0.detector);
      var _ := detector.ObserveStep(FileStateStep(fileState));
      vs := vs0.(plan := None, executed := 0, lastPassed := true, detector := detector.Value());
    }

    /** The attempt is journaled before the ledger of this process records it. */
    method RecordAttempt(vs0: VerifyState, e: Env) returns (ok: bool)
      requires Valid() && memory == Some(vs0) && RepairRecords(e)
      requires if e.reply.UseTool? && e.tool.Denied? then state.Failed? else state.Repairing?
      modifies this
      ensures Valid() && ok
      ensures written == old(written) + [Append(Attempted(AttemptFor(vs0, e)))] + RepairClosing(e)
      ensures memory == RepairMemory(vs0, e)
      ensures fed == old(fed) + if !e.reply.Ask? && !(e.reply.UseTool? && e.tool.Denied?)
                                then [AfterRepair(e.fileState)] else []
    {
      hide Valid, AttemptFor, Observe, ReplayDetector;
      var vs := vs0;
      var attempt := AttemptFor(vs, e);
      AppendJournal(Attempted(attempt));
      var ledger := new R.RepairLedger(vs.repair);
      ledger.Record(attempt);
      vs := vs.(repair := ledger.Value());
      ok := true;
      if e.reply.Ask? {
        PutVerifyState(vs);
        Transition(WaitingForUser);
        return;
      }
      vs := Restarted(vs, e.fileState);
      if state.Repairing? {
        fed := fed + [AfterRepair(e.fileState)];
        PutVerifyState(vs);
        Transition(Verifying);
      } else {
        memory := if state.Failed? then None else Some(vs);
      }
    }

    // -------------------------------------------------------------- implementing

    method StepImplementing(e: Env, ghost t: Task) returns (ok: bool)
      requires Valid() && Shows(t) && state.Implementing?
      modifies this`journal, this`state, this`pausedFrom, this`world, this`written
      ensures Valid() && Did(ImplementStep(t, e), ok)
    {
      hide Valid, LastTool, ToolWrites, ToolReturns, TurnWrites;
      if ToolInterrupted(journal) {
        ok := IssueAndExecute(e.tool);
        return;
      }
      ok := ImplementTurn(e);
    }

    method ImplementTurn(e: Env) returns (ok: bool)
      requires Valid() && state.Implementing?
      modifies this`journal, this`state, this`pausedFrom, this`world, this`written
      ensures Valid() && written + (if ok then [] else FAILING) == old(written) + TurnWrites(Implementing, e)
      ensures !ok ==> state.Implementing?
    {
      hide Valid, ToolWrites, ToolReturns;
      AppendJournal(ModelCall(Phase.ImplementTurn));
      AppendJournal(ContextRetrieved);
      if e.reply.Unavailable? {
        return false;
      }
      AppendJournal(ModelAnswered(Phase.ImplementTurn));
      ok := !e.reply.Malformed?;
      match e.reply
      case Finish => Transition(Verifying);
      case Ask => Transition(WaitingForUser);
      case UseTool => ok := IssueAndExecute(e.tool);
      case Malformed =>
    }

    method StepImplementingPlan(e: Env, ghost t: Task) returns (ok: bool)
      requires Valid() && Shows(t) && state.Implementing? && plan.Some?
      modifies this`journal, this`state, this`pausedFrom, this`world, this`written
      ensures Valid() && Did(ImplementPlanStep(t, e, t.d.plan.value), ok)
    {
      hide Valid, LastTool, ToolWrites, ToolReturns, SoloStep, WaveWrites, CompletedSteps, AllChunks, Batched, Drop;
      if ToolInterrupted(journal) {
        ok := IssueAndExecute(e.tool);
        return;
      }
      ok := true;
      if !e.stillValid {
        AppendJournal(RecoveryNote);
        Transition(Failed);
        return;
      }
      var p := plan.value;
      var done := CompletedPlanSteps(journal);
      match p.NextIncomplete(done)
      case None =>
        Transition(Verifying);
      case Some(s) =>
        var group := Drop(p.GroupFor(s), done);
        if |group| > 1 {
          P.GroupDistinct(p, journal, s);
          RunParallelGroup(p, group, e.childrenOk);
        } else {
          ok := SoloTurn(p, s, e, t);
        }
    }

    /** The step's checkpoint and start entries, each only if the journal has none. */
    method OpenPlanStep(p: Plan, s: StepId)
      requires Valid()
      modifies this`journal, this`written
      ensures Valid() && written == old(written) + OpenStep(old(journal), p, s)
      ensures journal == old(journal) + Entries(OpenStep(old(journal), p, s))
    {
      hide Valid, HasCheckpoint, IsStarted, Entries;
      OpenEntries(journal, p, s);
      StartUnaffected(journal, s);
      if s in p.checkpoints && !HasCheckpoint(journal, s) {
        AppendJournal(Checkpoint(s));
      }
      if !IsStarted(journal, s) {
        AppendJournal(StepStarted(s));
      }
    }

    method SoloTurn(p: Plan, s: StepId, e: Env, ghost t: Task) returns (ok: bool)
      requires Valid() && Shows(t) && state.Implementing?
      modifies this`journal, this`state, this`pausedFrom, this`world, this`written
      ensures Valid() && written + (if ok then [] else FAILING) == old(written) + SoloStep(t, e, p, s)
      ensures !ok ==> state.Implementing?
    {
      hide Valid, OpenStep, ActOn, TurnsSinceStart, UnprocessedAction;
      OpenPlanStep(p, s);
      L.OpenTurns(t.d.journal, p, s);
      OpenKeepsAction(t.d.journal, p, s);
      var turns := ModelTurnsForStep(journal, s);
      if turns >= MAX_STEP_TURNS {
        AppendJournal(StepCompleted(s));
        return true;
      }
      var stored := FindUnprocessedAction(journal, s);
      var action;
      if stored.Some? {
        action := stored.value;
      } else {
        AppendJournal(ModelCall(StepTurn(s)));
        if e.reply.Unavailable? || e.reply.Malformed? {
          return false;
        }
        action := ActionOf(e.reply);
        AppendJournal(StepAnswered(s, action));
      }
      ok := Act(s, action, e);
    }

    method Act(s: StepId, action: StepAction, e: Env) returns (ok: bool)
      requires Valid() && state.Implementing?
      modifies this`journal, this`state, this`pausedFrom, this`world, this`written
      ensures Valid() && written + (if ok then [] else FAILING) == old(written) + ActOn(Implementing, s, action, e)
      ensures !ok ==> state.Implementing?
    {
      hide Valid, ToolWrites;
      ok := true;
      match action
      case StepTool =>
        if e.outOfScope {
          AppendJournal(ScopeExpansion);
        }
        ok := IssueAndExecute(e.tool);
      case StepFinish =>
        AppendJournal(StepCompleted(s));
      case StepAsk =>
        Transition(WaitingForUser);
    }

    // -------------------------------------------------------------- the parallel wave

    /** One finished child, folded back into this task's journal. */
    method FoldChild(p: Plan, s: StepId)
      requires Valid()
      modifies this`journal, this`written
      ensures Valid() && written == old(written) + OpenStep(old(journal), p, s) + [Append(StepCompleted(s))]
      ensures forall x :: x != s ==> OpenStep(journal, p, x) == OpenStep(old(journal), p, x)
    {
      hide Valid, OpenStep;
      OpenPlanStep(p, s);
      AppendJournal(StepCompleted(s));
      forall x | x != s
        ensures OpenStep(journal, p, x) == OpenStep(old(journal), p, x)
      {
        OthersStayOpen(old(journal), p, s, x);
      }
    }

    /** Fold the children of one chunk, up to the first that failed. `j` is the journal when the wave
        began: nothing folded since concerns the steps of this chunk. */
    method FoldChunk(p: Plan, chunk: seq<StepId>, childrenOk: set<StepId>, ghost j: Log) returns (ok: bool)
      requires Valid() && state.Implementing? && Distinct(chunk)
      requires StillUnopened(p, j, journal, chunk)
      modifies this`journal, this`state, this`pausedFrom, this`written
      ensures Valid() && written == old(written) + FoldChildren(j, p, chunk, childrenOk)
      ensures ok <==> forall x :: x in chunk ==> x in childrenOk
      ensures ok ==> state.Implementing?
      ensures ok ==> SameElsewhere(p, old(journal), journal, chunk)
    {
      hide Valid, OpenStep, FoldChildren;
      var i := 0;
      ghost var pre: seq<Write> := [];
      assert chunk[0..] == chunk;
      while i < |chunk|
        invariant 0 <= i <= |chunk| && Valid() && state.Implementing?
        invariant written == old(written) + pre
        invariant FoldChildren(j, p, chunk, childrenOk) == pre + FoldChildren(j, p, chunk[i..], childrenOk)
        invariant forall x :: x in chunk[..i] ==> x in childrenOk
        invariant forall x :: x !in chunk[..i] ==> OpenStep(journal, p, x) == OpenStep(old(journal), p, x)
      {
        var s := chunk[i];
        assert s !in chunk[..i] && s in chunk;
        assert chunk[i..] == [s] + chunk[i + 1..];
        FoldFirst(j, p, s, chunk[i + 1..], childrenOk);
        if s !in childrenOk {
          AppendJournal(RecoveryNote);
          Transition(Failed);
          return false;
        }
        FoldChild(p, s);
        pre := pre + OpenStep(j, p, s) + [Append(StepCompleted(s))];
        assert chunk[..i + 1] == chunk[..i] + [s];
        i := i + 1;
      }
      assert chunk[..|chunk|] == chunk;
      FoldNone(j, p, chunk[i..], childrenOk);
      ok := true;
    }

    /** The children of a chunk all run, and edit, before any of them is folded back. */
    ghost method ChildrenRan(n: nat)
      requires Valid()
      modifies this`world, this`written
      ensures Valid() && written == old(written) + seq(n, _ => World(Edited))
    {
      hide Valid;
      for i := 0 to n
        invariant Valid() && written == old(written) + seq(i, _ => World(Edited))
      {
        Happened(Edited);
      }
    }

    /** Up to four children at once, then their results. */
    method RunChunk(p: Plan, chunk: seq<StepId>, childrenOk: set<StepId>, ghost j: Log) returns (ok: bool)
      requires Valid() && state.Implementing? && Distinct(chunk) && StillUnopened(p, j, journal, chunk)
      modifies this`journal, this`state, this`pausedFrom, this`world, this`written
      ensures Valid() && written == old(written) + ChunkWrites(j, p, chunk, childrenOk)
      ensures ok <==> AllOk(chunk, childrenOk)
      ensures ok ==> state.Implementing? && SameElsewhere(p, old(journal), journal, chunk)
    {
      hide Valid, FoldChildren, StillUnopened, SameElsewhere;
      ChildrenRan(|chunk|);
      ok := FoldChunk(p, chunk, childrenOk, j);
    }

    /** One conflict-free batch, a bounded chunk at a time. */
    method RunBatch(p: Plan, batch: seq<StepId>, childrenOk: set<StepId>, ghost j: Log) returns (ok: bool)
      requires Valid() && state.Implementing? && Distinct(batch) && StillUnopened(p, j, journal, batch)
      modifies this`journal, this`state, this`pausedFrom, this`world, this`written
      ensures Valid() && written == old(written) + WaveWrites(j, p, Chunks(batch), childrenOk)
      ensures ok <==> AllOk(batch, childrenOk)
      ensures ok ==> state.Implementing? && SameElsewhere(p, old(journal), journal, batch)
    {
      hide Valid, ChunkWrites, WaveWrites, Chunks, Distinct, StillUnopened, SameElsewhere, AllOk;
      WaveEmpty(j, p, childrenOk);
      NothingElsewhere(p, journal);
      var rest := batch;
      ghost var seen: seq<StepId> := [];
      ghost var made: seq<Write> := [];
      while rest != []
        invariant Valid() && state.Implementing? && Distinct(rest)
        invariant written == old(written) + made
        invariant WaveWrites(j, p, Chunks(batch), childrenOk) == made + WaveWrites(j, p, Chunks(rest), childrenOk)
        invariant batch == seen + rest
        invariant AllOk(seen, childrenOk)
        invariant StillUnopened(p, j, journal, rest) && SameElsewhere(p, old(journal), journal, seen)
        decreases |rest|
      {
        var n := if |rest| <= MAX_PARALLEL_CHILDREN then |rest| else MAX_PARALLEL_CHILDREN;
        var chunk, later := rest[..n], rest[n..];
        assert rest == chunk + later;
        FirstChunk(rest);
        P.DistinctParts(chunk, later);
        WaveFirst(j, p, chunk, Chunks(later), childrenOk);
        OkParts(seen, chunk, later, childrenOk);
        UnopenedParts(p, j, journal, chunk, later);
        ghost var before := journal;
        ok := RunChunk(p, chunk, childrenOk, j);
        made := made + ChunkWrites(j, p, chunk, childrenOk);
        assert batch == seen + chunk + later;
        if !ok {
          return;
        }
        OthersUnopened(p, j, before, journal, chunk, later);
        ElsewhereJoins(p, old(journal), before, journal, seen, chunk);
        seen := seen + chunk;
        rest := later;
      }
      assert batch == seen;
      ok := true;
    }

    /** Run every step of a group in child tasks: batches one after the other, and the first child that
        does not complete fails the whole task. */
    method RunParallelGroup(p: Plan, ids: seq<StepId>, childrenOk: set<StepId>)
      requires Valid() && state.Implementing?
      requires Distinct(Flatten(AllChunks(Batched(p, ids))))
      modifies this`journal, this`state, this`pausedFrom, this`world, this`written
      ensures Valid() && written == old(written) + WaveWrites(old(journal), p, AllChunks(Batched(p, ids)), childrenOk)
    {
      hide Valid, WaveWrites, Chunks, AllChunks, Flatten, Distinct, Batched, StillUnopened, SameElsewhere, AllOk;
      ghost var j := journal;
      var batches := PartitionConflictFree(p, ids);
      ghost var made: seq<Write> := [];
      assert batches[0..] == batches;
      NothingOpened(p, j, Flatten(batches));
      var b := 0;
      while b < |batches|
        invariant 0 <= b <= |batches|
        invariant Valid() && state.Implementing?
        invariant written == old(written) + made
        invariant WaveWrites(j, p, AllChunks(batches), childrenOk)
                  == made + WaveWrites(j, p, AllChunks(batches[b..]), childrenOk)
        invariant Distinct(Flatten(batches[b..]))
        invariant StillUnopened(p, j, journal, Flatten(batches[b..]))
      {
        ghost var later := batches[b + 1..];
        assert batches[b..] == [batches[b]] + later;
        FlattenFirst(batches[b], later);
        P.DistinctParts(batches[b], Flatten(later));
        WaveConcat(j, p, Chunks(batches[b]), AllChunks(later), childrenOk);
        UnopenedParts(p, j, journal, batches[b], Flatten(later));
        ghost var before := journal;
        var ok := RunBatch(p, batches[b], childrenOk, j);
        made := made + WaveWrites(j, p, Chunks(batches[b]), childrenOk);
        if !ok {
          return;
        }
        OthersUnopened(p, j, before, journal, batches[b], Flatten(later));
        b := b + 1;
      }
      assert batches[b..] == [];
      WaveEmpty(j, p, childrenOk);
    }

    // -------------------------------------------------------------- planning

    /** Decide one submission. `left` is the process's own count of rejections still allowed: the
        journal is not counted again. */
    method DecideSubmission(submission: Option<string>, e: Env, left: nat) returns (rejected: bool)
      requires Valid() && state.Planning? && left > 0
      modifies this`journal, this`state, this`pausedFrom, this`plan, this`written
      ensures Valid()
      ensures match SubmittedPlan(submission, e)
              case Some(p) =>
                !rejected && written == old(written) + [SavePlan(p), Append(PlanAccepted), Goto(Implementing)]
              case None =>
                && rejected
                && written == old(written) + [Append(PlanRejected)] + (if left == 1 then FAILING else [])
                && (left > 1 ==> state.Planning? && journal == old(journal) + [PlanRejected])
    {
      hide Valid;
      var decided := if submission == None then None else e.verdict;
      match decided
      case Some(p) =>
        SaveRevision(p);
        AppendJournal(PlanAccepted);
        Transition(Implementing);
        rejected := false;
      case None =>
        AppendJournal(PlanRejected);
        if left == 1 {
          AppendJournal(RecoveryNote);
          Transition(Failed);
        }
        rejected := true;
    }

    /** The stored submission if it was never decided, or else the model's answer to a new call. */
    method ObtainSubmission(e: Env) returns (submission: Option<Option<string>>)
      requires Valid()
      modifies this`journal, this`written
      ensures Valid() && state == old(state)
      ensures var stored := UnprocessedSubmission(old(journal));
        if stored.Some? then
          written == old(written) && journal == old(journal) && submission == stored
        else if e.reply.Unavailable? || e.reply.Malformed? then
          written == old(written) + [Append(ModelCall(PlanTurn))] && submission == None
        else
          && written == old(written) + [Append(ModelCall(PlanTurn)), Append(PlanAnswered(e.submission))]
          && journal == old(journal) + [ModelCall(PlanTurn), PlanAnswered(e.submission)]
          && submission == Some(e.submission)
    {
      hide Valid, UnprocessedSubmission;
      submission := FindUnprocessedSubmission(journal);
      if submission == None {
        AppendJournal(ModelCall(PlanTurn));
        if !(e.reply.Unavailable? || e.reply.Malformed?) {
          AppendJournal(PlanAnswered(e.submission));
          submission := Some(e.submission);
        }
      }
    }

    /** Plan until a plan is accepted, the rejections are used up, or the model fails. `n` counts the
        rounds; each of them is a round of the step machine, which reads its rejections from the journal. */
    method StepPlanning(envs: nat -> Env, ghost t: Task) returns (ok: bool, n: nat)
      requires Valid() && AsTask() == t && state.Planning?
      requires forall k :: envs(k).modelAuthored
      modifies this`journal, this`state, this`pausedFrom, this`plan, this`written
      ensures Valid() && n > 0
      ensures ok ==> AsTask() == Driven(t, envs, n)
      ensures !ok ==> state.Planning? && Task(ApplyAll(Durable(), FAILING), memory, fed) == Driven(t, envs, n)
    {
      hide HasAcceptedPlan, Rejections, ApplyAll, PlanningRound, Driven;
      DrivenNone(t, envs);
      RoundWithoutAnswer(t, envs(0));
      n := 1;
      ok := true;
      if HasAcceptedPlan(journal) {
        Transition(Implementing);
        RoundEnds(start, old(written), written, t, envs, 0);
        return;
      }
      var rejections := CountRejections(journal);
      if rejections >= MAX_PLAN_REPAIR_ATTEMPTS {
        AppendJournal(RecoveryNote);
        Transition(Failed);
        RoundEnds(start, old(written), written, t, envs, 0);
        return;
      }
      n := 0;
      while true
        invariant Valid() && AsTask() == Driven(t, envs, n) && state.Planning?
        invariant !HasAcceptedPlan(journal) && Rejections(journal) == rejections < MAX_PLAN_REPAIR_ATTEMPTS
        decreases MAX_PLAN_REPAIR_ATTEMPTS - rejections
      {
        ghost var before := written;
        var going;
        ok, going := PlanOnce(envs(n), MAX_PLAN_REPAIR_ATTEMPTS - rejections, AsTask());
        n := n + 1;
        rejections := rejections + 1;
        RoundEnds(start, before, written + (if ok then [] else FAILING), t, envs, n - 1);
        if ok {
          assert written + [] == written;
        } else {
          ApplyConcat(start, written, FAILING);
        }
        if !going {
          return;
        }
      }
    }

    method PlanOnce(e: Env, left: nat, ghost t: Task) returns (ok: bool, going: bool)
      requires Valid() && Shows(t) && state.Planning?
      requires !HasAcceptedPlan(journal) && Rejections(journal) + left == MAX_PLAN_REPAIR_ATTEMPTS && left > 0
      modifies this`journal, this`state, this`pausedFrom, this`plan, this`written
      ensures Valid() && written + (if ok then [] else FAILING) == old(written) + PlanningRound(t, e).writes
      ensures !ok ==> state.Planning? && !going
      ensures going ==> left > 1 && state.Planning? && !HasAcceptedPlan(journal) && Rejections(journal) == Rejections(old(journal)) + 1
    {
      hide Valid, HasAcceptedPlan, UnprocessedSubmission, Rejections;
      ghost var j := journal;
      var submission := ObtainSubmission(e);
      if submission == None {
        return false, false;
      }
      ghost var asked := journal[|j|..];
      var rejected := DecideSubmission(submission.value, e, left);
      ok, going := true, rejected && left > 1;
      if going {
        RejectionCounted(j, asked);
        assert journal == j + asked + [PlanRejected];
      }
    }

    // -------------------------------------------------------------- the loop and its clients

    /** One iteration of the driver's loop outside model-authored planning. */
    method Dispatch(e: Env, ghost t: Task) returns (ok: bool)
      requires Valid() && Shows(t) && !(state.Planning? && e.modelAuthored)
      modifies this
      ensures Valid() && Did(DriveStep(t, e), ok)
    {
      hide Valid, VerifyStep, DiagnoseStep, RepairStep, ImplementStep, ImplementPlanStep, PlanningRound;
      ok := true;
      match state
      case Idle =>
        Transition(Understanding);
      case Understanding =>
        Transition(Discovery);
      case Discovery =>
        AppendJournal(ContextRetrieved);
        Transition(Planning);
      case Planning =>
        Transition(Implementing);
      case Implementing =>
        if plan.Some? {
          ok := StepImplementingPlan(e, t);
        } else {
          ok := StepImplementing(e, t);
        }
      case Verifying =>
        ok := StepVerifying(e, t);
      case Diagnosing =>
        StepDiagnosing(e, t);
      case Repairing =>
        ok := StepRepairing(e, t);
      case Completed =>
        memory := None;
      case Failed =>
        memory := None;
      case Cancelled =>
        memory := None;
      case _ =>
    }

    /** One iteration of the driver's loop; a handler's error makes the application note it and fail the
        task. It is a step of the step machine, or the rounds of one planning phase. */
    method Drive(envs: nat -> Env) returns (n: nat)
      requires Valid()
      requires forall k :: envs(k).modelAuthored == envs(0).modelAuthored
      modifies this
      ensures Valid() && n > 0
      ensures AsTask() == Driven(old(AsTask()), envs, n)
    {
      hide ApplyAll, DriveStep, Driven;
      ghost var t := AsTask();
      var ok;
      ghost var before := written;
      if state.Planning? && envs(0).modelAuthored {
        ok, n := StepPlanning(envs, t);
        before := written;
      } else {
        ok := Dispatch(envs(0), t);
        n := 1;
        DrivenOnce(t, envs);
        ApplyConcat(start, before, DriveStep(t, envs(0)).writes);
      }
      before := written;
      if ok {
        assert written + [] == written;
      } else {
        ApplyConcat(start, before, FAILING);
        AppendJournal(RecoveryNote);
        Transition(Failed);
        assert written == before + FAILING;
      }
    }

    method Respond()
      requires Valid()
      modifies this
      ensures Valid() && AsTask() == Step(old(AsTask()), Run(Action.Respond))
    {
      hide ApplyAll;
      ghost var before := written;
      ApplyConcat(start, before, Do(AsTask(), Action.Respond).writes);
      ApplyNone(Durable());
      if state.WaitingForUser? {
        AppendJournal(UserResponse);
        Transition(Implementing);
        assert written == before + [Append(UserResponse), Goto(Implementing)];
      }
    }

    /** Answer the pending permission request. */
    method ResolvePermission(approve: bool, outcome: ToolOutcome)
      requires Valid()
      modifies this
      ensures Valid() && AsTask() == Step(old(AsTask()), Run(Resolve(approve, outcome)))
    {
      hide ApplyAll, LastTool;
      ghost var before := written;
      ghost var ws := ResolveWrites(AsTask(), approve, outcome);
      ApplyConcat(start, before, ws);
      ApplyNone(Durable());
      if !state.WaitingForPermission? || !PermissionPending(journal) {
        return;
      }
      if !approve || outcome.Denied? {
        AppendJournal(ToolDenied);
        Transition(Failed);
        assert written == before + ws;
      } else if outcome.Executed? {
        Happened(Edited);
        AppendJournal(ToolResult);
        var target := if memory.Some? then Verifying else Implementing;
        if state.CanTransitionTo(target) {
          Transition(target);
        }
        assert written == before + ws;
      }
    }

    method PauseTask()
      requires Valid()
      modifies this
      ensures Valid() && AsTask() == Step(old(AsTask()), Run(Pause))
    {
      hide ApplyAll;
      ApplyConcat(start, written, Do(AsTask(), Pause).writes);
      ApplyNone(Durable());
      if !state.Paused? && state.CanTransitionTo(Paused) {
        Transition(Paused);
      }
    }

    method CancelTask()
      requires Valid()
      modifies this
      ensures Valid() && AsTask() == Step(old(AsTask()), Run(Cancel))
    {
      hide ApplyAll;
      ApplyConcat(start, written, Do(AsTask(), Cancel).writes);
      ApplyNone(Durable());
      if !state.Paused? && state.CanTransitionTo(Cancelled) {
        Transition(Cancelled);
      }
    }

    method ResumeTask()
      requires Valid()
      modifies this
      ensures Valid() && AsTask() == Step(old(AsTask()), Run(Resume))
    {
      hide ApplyAll;
      ghost var before := written;
      ghost var ws := ResumeWrites(Durable());
      ApplyConcat(start, before, ws);
      ApplyNone(Durable());
      if !state.Stable() {
        var from := state;
        AppendJournal(RecoveryNote);
        Transition(Paused);
        Transition(from);
        assert written == before + ws;
      } else if state.Paused? && pausedFrom.Some? {
        Transition(pausedFrom.value);
      }
    }
  }
}
