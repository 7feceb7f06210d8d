/** Completion is earned: a task that completes through a verification plan has just passed every
    check of it, with no edit in between - on every run. */
module AgentCompletion {
  import opened Options
  import opened LoopDetect
  import opened Journal
  import opened Agent

  function PassingRuns(checks: seq<Check>): (runs: seq<WorldEvent>)
    ensures |runs| == |checks|
  {
    seq(|checks|, k requires 0 <= k < |checks| => Ran(checks[k], true))
  }

  predicate EndsWith<T(==)>(s: seq<T>, tail: seq<T>) {
    |tail| <= |s| && s[|s| - |tail|..] == tail
  }

  /** Whatever was written to memory as working here, all of it had just passed. */
  predicate EarnedProperly(world: seq<WorldEvent>) {
    forall i :: 0 <= i < |world| && world[i].Earned? ==>
      world[i].checks != [] && EndsWith(world[..i], PassingRuns(world[i].checks))
  }

  /** Memory that says the checks so far have passed is right, and is only there while verifying. */
  predicate ChecksRemembered(t: Task) {
    t.mem.Some? && t.mem.value.plan.Some? ==>
      var vs := t.mem.value;
      && vs.plan.value != []
      && vs.executed <= |vs.plan.value|
      && (vs.lastPassed && !t.d.state.Terminal() ==>
            && Place(t.d).Verifying?
            && EndsWith(t.d.world, PassingRuns(vs.plan.value[..vs.executed])))
  }

  /** What happens to the workspace in some writes. */
  function Happens(ws: seq<Write>): seq<WorldEvent> {
    if ws == [] then []
    else Happens(ws[..|ws| - 1]) + (if ws[|ws| - 1].World? then [ws[|ws| - 1].event] else [])
  }

  lemma {:induction false} WorldAfter(d: Durable, ws: seq<Write>)
    ensures ApplyAll(d, ws).world == d.world + Happens(ws)
  {
    if ws != [] {
      WorldAfter(d, ws[..|ws| - 1]);
    }
  }

  lemma {:induction false} HappensIn(ws: seq<Write>)
    ensures forall ev :: ev in Happens(ws) ==> World(ev) in ws
  {
    if ws != [] {
      HappensIn(ws[..|ws| - 1]);
      forall ev | ev in Happens(ws)
        ensures World(ev) in ws
      {
        assert ev in Happens(ws[..|ws| - 1]) || ws[|ws| - 1] == World(ev);
      }
    }
  }

  lemma {:induction false} UnearnedEvents(world: seq<WorldEvent>, more: seq<WorldEvent>)
    requires EarnedProperly(world) && forall ev :: ev in more ==> !ev.Earned?
    ensures EarnedProperly(world + more)
  {
    var all := world + more;
    forall i | 0 <= i < |all| && all[i].Earned?
      ensures all[i].checks != [] && EndsWith(all[..i], PassingRuns(all[i].checks))
    {
      assert i < |world| by {
        assert forall k :: 0 <= k < |more| ==> more[k] in more;
      }
      assert all[..i] == world[..i];
    }
  }

  lemma {:induction false} NoRewardIn(s: State, ws: seq<Write>)
    requires AllMay(s, ws) && !s.Verifying?
    ensures forall ev :: ev in Happens(ws) ==> !ev.Earned?
  {
    HappensIn(ws);
    forall ev | ev in Happens(ws)
      ensures !ev.Earned?
    {
      assert MayWrite(s, World(ev));
    }
  }

  lemma {:induction false} NoRewardByClient(t: Task, ws: seq<Write>)
    requires forall w :: w in ws ==> ClientMayWrite(t, w)
    ensures forall ev :: ev in Happens(ws) ==> !ev.Earned?
  {
    HappensIn(ws);
    forall ev | ev in Happens(ws)
      ensures !ev.Earned?
    {
      assert ClientMayWrite(t, World(ev));
    }
  }

  // ---------------------------------------------------------------- a verification step

  lemma {:induction false} PassExtends(world: seq<WorldEvent>, checks: seq<Check>, n: nat)
    requires n < |checks| && EndsWith(world, PassingRuns(checks[..n]))
    ensures EndsWith(world + [Ran(checks[n], true)], PassingRuns(checks[..n + 1]))
  {
    assert PassingRuns(checks[..n + 1]) == PassingRuns(checks[..n]) + [Ran(checks[n], true)];
  }

  lemma {:induction false} VerifyHappens(t: Task, e: Env)
    requires ChecksRemembered(t) && t.d.state.Verifying?
    ensures var ws := VerifyStep(t, e).writes;
      || (&& (forall w :: w in ws ==> !(w.World? && w.event.Earned?))
          && (Goto(Completed) in ws ==> Take(t).plan == None && e.checks == []))
      || (var plan := WithPlan(Take(t), e).plan.value;
          ws == [World(Earned(plan)), Goto(Completed)] && plan != [] && EndsWith(t.d.world, PassingRuns(plan)))
  {
    if !(Take(t).plan == None && e.checks == []) {
      var vs := WithPlan(Take(t), e);
      var plan := vs.plan.value;
      if NextAfter(plan, vs.executed, vs.lastPassed) == None && vs.lastPassed {
        assert plan[..vs.executed] == plan;
      }
    }
  }

  lemma {:induction false} PrefixOfReward(world: seq<WorldEvent>, plan: seq<Check>, made: seq<Write>)
    requires EarnedProperly(world) && plan != [] && EndsWith(world, PassingRuns(plan))
    requires made <= [World(Earned(plan)), Goto(Completed)]
    ensures EarnedProperly(world + Happens(made))
  {
    if made == [] {
      assert world + Happens(made) == world;
    } else {
      assert Happens(made) == [Earned(plan)] by {
        assert made[..1] == [World(Earned(plan))];
        assert Happens([World(Earned(plan))]) == [Earned(plan)];
      }
      var all := world + [Earned(plan)];
      forall i | 0 <= i < |all| && all[i].Earned?
        ensures all[i].checks != [] && EndsWith(all[..i], PassingRuns(all[i].checks))
      {
        if i == |world| {
          assert all[..i] == world;
        } else {
          assert all[..i] == world[..i];
        }
      }
    }
  }

  lemma {:induction false} VerifyEarns(t: Task, e: Env, made: seq<Write>)
    requires ChecksRemembered(t) && t.d.state.Verifying? && EarnedProperly(t.d.world)
    requires made <= VerifyStep(t, e).writes
    ensures EarnedProperly(t.d.world + Happens(made))
  {
    VerifyHappens(t, e);
    var ws := VerifyStep(t, e).writes;
    if forall w :: w in ws ==> !(w.World? && w.event.Earned?) {
      HappensIn(made);
      UnearnedEvents(t.d.world, Happens(made));
    } else {
      PrefixOfReward(t.d.world, WithPlan(Take(t), e).plan.value, made);
    }
  }

  lemma {:induction false} HappensThree(a: Write, b: Write, c: Write)
    ensures Happens([a, b, c]) == Happens([a]) + Happens([b]) + Happens([c])
  {
    assert [a, b, c][..2] == [a, b] && [a, b][..1] == [a];
    assert Happens([b]) == (if b.World? then [b.event] else []);
    assert Happens([c]) == (if c.World? then [c.event] else []);
    assert Happens([a, b]) == Happens([a]) + Happens([b]);
  }

  lemma {:induction false} VerifyPasses(t: Task, e: Env, check: Check)
    requires ChecksRemembered(t) && t.d.state.Verifying? && e.run.Passes?
    requires !(Take(t).plan == None && e.checks == [])
    requires var vs := WithPlan(Take(t), e); NextAfter(vs.plan.value, vs.executed, vs.lastPassed) == Some(check)
    ensures ChecksRemembered(Step(t, Run(Drive(e))))
  {
    hide ReplayDetector, ReplayLedger, FailureObserved;
    var vs := WithPlan(Take(t), e);
    var plan := vs.plan.value;
    var ws := VerifyStep(t, e).writes;
    assert ws == [Append(VerifyIssued(check)), World(Ran(check, true)), Append(VerifyResult(check, true))];
    StateAfter(t.d, ws, 0);
    WorldAfter(t.d, ws);
    HappensThree(ws[0], ws[1], ws[2]);
    assert Happens(ws) == [Ran(check, true)];
    if vs.executed == 0 {
      assert PassingRuns(plan[..0]) == [];
    }
    PassExtends(t.d.world, plan, vs.executed);
    RunsAlong(t.d, ws);
  }

  /** Without a transition the place is unchanged. */
  lemma {:induction false} RunsAlong(d: Durable, ws: seq<Write>)
    requires forall w :: w in ws ==> !w.Goto?
    ensures ApplyAll(d, ws).pausedFrom == d.pausedFrom && ApplyAll(d, ws).state == d.state
  {
    if ws != [] {
      RunsAlong(d, ws[..|ws| - 1]);
    }
  }

  lemma {:induction false} VerifyKeepsChecks(t: Task, e: Env)
    requires ChecksRemembered(t) && t.d.state.Verifying?
    ensures ChecksRemembered(Step(t, Run(Drive(e))))
  {
    hide ReplayDetector, ReplayLedger, FailureObserved;
    if !(Take(t).plan == None && e.checks == []) {
      var vs := WithPlan(Take(t), e);
      var next := NextAfter(vs.plan.value, vs.executed, vs.lastPassed);
      if next.Some? && e.run.Passes? {
        VerifyPasses(t, e, next.value);
      } else {
        var ws := VerifyStep(t, e).writes;
        assert ws[|ws| - 1].Goto?;
        StateAfter(t.d, ws, |ws|);
      }
    }
  }

  // ---------------------------------------------------------------- the other handlers

  /** Away from verification no handler leaves memory of passed checks behind that was not there. */
  lemma {:induction false} OthersKeepChecks(t: Task, a: Action)
    requires ChecksRemembered(t)
    requires !a.Drive? || !t.d.state.Verifying?
    ensures ChecksRemembered(Step(t, Run(a)))
  {
    hide VerifyStep, DiagnoseStep, RepairStep, ImplementStep, ImplementPlanStep, PlanningRound;
    var eff := Do(t, a);
    if a.Drive? {
      if t.d.state.Diagnosing? {
        DiagnosisKeepsPlan(t, a.env);
      } else if t.d.state.Repairing? {
        RepairKeepsPlan(t, a.env);
      } else {
        MemoryIsKept(t, a.env);
        if t.d.state.Stable() {
          assert eff.writes == [];
        }
      }
    } else {
      ClientKeepsChecks(t, a);
    }
  }

  lemma {:induction false} DiagnosisKeepsPlan(t: Task, e: Env)
    ensures var m := DiagnoseStep(t, e).mem; m.Some? && m.value.plan.Some? ==>
              t.mem.Some? && m.value.plan == t.mem.value.plan
              && m.value.executed == t.mem.value.executed && m.value.lastPassed == t.mem.value.lastPassed
  {
  }

  lemma {:induction false} RepairKeepsPlan(t: Task, e: Env)
    ensures var m := RepairStep(t, e).mem; m.Some? && m.value.plan.Some? ==>
              t.mem.Some? && m.value.plan == t.mem.value.plan
              && m.value.executed == t.mem.value.executed && m.value.lastPassed == t.mem.value.lastPassed
  {
  }

  /** Where passed checks are remembered, a client can only pause, resume or cancel. */
  lemma {:induction false} ClientKeepsChecks(t: Task, a: Action)
    requires ChecksRemembered(t) && !a.Drive?
    ensures ChecksRemembered(Step(t, Run(a)))
  {
    var ws := Do(t, a).writes;
    if t.mem.Some? && t.mem.value.plan.Some? && t.mem.value.lastPassed {
      if t.d.state.Terminal() {
        assert ws == [];
      } else {
        ClientAtVerifying(t, a);
        WorldAfter(t.d, ws);
        assert t.d.world + [] == t.d.world;
      }
    }
  }

  lemma {:induction false} ClientAtVerifying(t: Task, a: Action)
    requires !a.Drive? && Place(t.d).Verifying? && !t.d.state.Terminal()
    ensures var ws := Do(t, a).writes;
      Happens(ws) == [] && (Place(ApplyAll(t.d, ws)).Verifying? || ApplyAll(t.d, ws).state.Terminal())
  {
    var ws := Do(t, a).writes;
    if ws != [] {
      StateAfter(t.d, ws, |ws|);
      if a.Resume? && t.d.state.Verifying? {
        HappensThree(ws[0], ws[1], ws[2]);
      }
    }
  }

  // ---------------------------------------------------------------- all runs

  lemma {:induction false} EventEarns(t: Task, ev: Event)
    requires ChecksRemembered(t) && EarnedProperly(t.d.world)
    ensures EarnedProperly(Step(t, ev).d.world)
  {
    hide VerifyStep, DiagnoseStep, RepairStep, ImplementStep, ImplementPlanStep, PlanningRound;
    var made := Made(t, ev);
    WorldAfter(t.d, made);
    if ev.action.Drive? && t.d.state.Verifying? {
      VerifyEarns(t, ev.action.env, made);
    } else {
      if ev.action.Drive? {
        DriveMay(t, ev.action.env);
        NoRewardIn(t.d.state, made);
      } else {
        ClientMay(t, ev.action);
        NoRewardByClient(t, made);
      }
      UnearnedEvents(t.d.world, Happens(made));
    }
  }

  /** On every run, through pauses, resumes, permission answers and crashes: whenever commands are
      written to repository memory as verified, the last things that happened to the workspace are
      passing runs of exactly the checks of that non-empty plan, in order. */
  lemma {:induction false} CompletionIsEarned(events: seq<Event>)
    ensures EarnedProperly(After(events).d.world)
    ensures ChecksRemembered(After(events))
  {
    hide VerifyStep, DiagnoseStep, RepairStep, ImplementStep, ImplementPlanStep, PlanningRound;
    if events != [] {
      var before, ev := events[..|events| - 1], events[|events| - 1];
      CompletionIsEarned(before);
      var t := After(before);
      EventEarns(t, ev);
      if ev.Run? {
        if ev.action.Drive? && t.d.state.Verifying? {
          VerifyKeepsChecks(t, ev.action.env);
        } else {
          OthersKeepChecks(t, ev.action);
        }
      }
    }
  }

  /** A paused task was paused from a live state. */
  predicate SoundPause(d: Durable) {
    d.pausedFrom.Some? ==> !d.pausedFrom.value.Terminal() && !d.pausedFrom.value.Paused?
  }

  lemma {:induction false} PauseByClient(d: Durable, ws: seq<Write>)
    requires SoundPause(d)
    requires Goto(Paused) in ws ==> ws == [Goto(Paused)] || (ws == [Append(RecoveryNote), Goto(Paused)])
                                    || ws == [Append(RecoveryNote), Goto(Paused), Goto(d.state)]
    requires Goto(Paused) in ws ==> !d.state.Terminal() && !d.state.Paused?
    ensures SoundPause(ApplyAll(d, ws))
  {
    if Goto(Paused) !in ws {
      if ws != [] {
        PauseByClient(d, ws[..|ws| - 1]);
      }
    } else if |ws| == 2 {
      assert ws[..1] == [Append(RecoveryNote)];
      assert ApplyAll(d, ws[..1]).state == d.state;
    } else if |ws| == 3 {
      assert ws[2] == Goto(d.state);
    }
  }

  lemma {:induction false} PausesAreSound(events: seq<Event>)
    ensures SoundPause(After(events).d)
  {
    hide VerifyStep, DiagnoseStep, RepairStep, ImplementStep, ImplementPlanStep, PlanningRound;
    if events != [] {
      var before, ev := events[..|events| - 1], events[|events| - 1];
      PausesAreSound(before);
      var t := After(before);
      var ws := Do(t, ev.action).writes;
      if ev.action.Drive? {
        DriveMay(t, ev.action.env);
        assert !MayWrite(t.d.state, Goto(Paused));
      } else if ev.action.Resume? && !t.d.state.Stable() {
        assert ws == [Append(RecoveryNote), Goto(Paused), Goto(t.d.state)];
        assert ws[..2] == [Append(RecoveryNote), Goto(Paused)];
        assert Goto(Paused) !in ws[..1];
      } else {
        assert Goto(Paused) in Do(t, ev.action).writes ==>
            Do(t, ev.action).writes == [Goto(Paused)] && !t.d.state.Terminal() && !t.d.state.Paused?;
      }
      PauseByClient(t.d, Made(t, ev));
    }
  }

  /** And that is the only way to complete, unless there was nothing to verify. */
  lemma {:induction false} CompletesOnlyVerified(events: seq<Event>, ev: Event)
    requires !After(events).d.state.Completed? && Step(After(events), ev).d.state.Completed?
    ensures ev.action.Drive? && After(events).d.state.Verifying?
    ensures var t := After(events);
      || (Take(t).plan == None && ev.action.env.checks == [])
      || (var plan := WithPlan(Take(t), ev.action.env).plan.value;
          plan != [] && EndsWith(Step(t, ev).d.world, PassingRuns(plan) + [Earned(plan)]))
  {
    hide VerifyStep, DiagnoseStep, RepairStep, ImplementStep, ImplementPlanStep, PlanningRound;
    var t := After(events);
    CompletionIsEarned(events);
    var made := Made(t, ev);
    PausesAreSound(events);
    OnlyVerifyingCompletes(t, ev);
    if !(Take(t).plan == None && ev.action.env.checks == []) {
      var e := ev.action.env;
      VerifyHappens(t, e);
      assert Goto(Completed) in VerifyStep(t, e).writes;
      var plan := WithPlan(Take(t), e).plan.value;
      assert VerifyStep(t, e).writes == [World(Earned(plan)), Goto(Completed)];
      RewardThenDone(t.d, plan, made);
    }
  }

  lemma {:induction false} RewardThenDone(d: Durable, plan: seq<Check>, made: seq<Write>)
    requires made <= [World(Earned(plan)), Goto(Completed)] && Goto(Completed) in made
    requires EndsWith(d.world, PassingRuns(plan))
    ensures EndsWith(ApplyAll(d, made).world, PassingRuns(plan) + [Earned(plan)])
  {
    assert made == [World(Earned(plan)), Goto(Completed)];
    assert made[..1] == [World(Earned(plan))];
    assert ApplyAll(d, made[..1]) == d.(world := d.world + [Earned(plan)]);
    assert ApplyAll(d, made).world == d.world + [Earned(plan)];
  }

  lemma {:induction false} OnlyVerifyingCompletes(t: Task, ev: Event)
    requires !t.d.state.Completed? && Step(t, ev).d.state.Completed? && SoundPause(t.d)
    ensures Goto(Completed) in Made(t, ev)
    ensures ev.action.Drive? && t.d.state.Verifying?
  {
    hide VerifyStep, DiagnoseStep, RepairStep, ImplementStep, ImplementPlanStep, PlanningRound;
    var made := Made(t, ev);
    LastState(t.d, made);
    assert Goto(Completed) in made;
    assert Goto(Completed) in Do(t, ev.action).writes;
    if ev.action.Drive? {
      DriveMay(t, ev.action.env);
      assert MayWrite(t.d.state, Goto(Completed));
    } else {
      NoClientCompletes(t, ev.action);
    }
  }

  lemma {:induction false} NoClientCompletes(t: Task, a: Action)
    requires !a.Drive? && !t.d.state.Completed?
    requires SoundPause(t.d)
    ensures Goto(Completed) !in Do(t, a).writes
  {
  }
}
