/** What the loop detectors promise over a whole history of observations. */
module LoopDetectProofs {
  import opened Options
  import opened LoopDetect

  // ---------------------------------------------------------------- the run counters mean what they say

  /** Step `i` left the file state as step `i - 1` did. */
  predicate Unchanged(steps: seq<Signature>, i: nat)
    requires 0 < i < |steps|
  {
    steps[i].key.fileState.Some? && steps[i - 1].key.fileState == steps[i].key.fileState
  }

  /** Snapshot `i` shows no progress over the one before it: the frontier did not rise, the failures did not
      become fewer, and the touched files did not become more. */
  predicate Stuck(progress: seq<Metric>, i: nat)
    requires 0 < i < |progress|
  {
    && progress[i].frontier <= progress[i - 1].frontier
    && progress[i].failureCount >= progress[i - 1].failureCount
    && |progress[i].filesTouched| <= |progress[i - 1].filesTouched|
  }

  /** `n` is the length of the longest run of unchanged file states at the end of the steps. */
  predicate IsNoChangeRun(steps: seq<Signature>, n: nat) {
    && (n == 0 || n < |steps|)
    && (forall i :: |steps| - n <= i < |steps| && i > 0 ==> Unchanged(steps, i))
    && (n + 1 < |steps| ==> !Unchanged(steps, |steps| - n - 1))
  }

  /** `n` is the length of the longest run of snapshots at the end that show no progress. */
  predicate IsStalledRun(progress: seq<Metric>, n: nat) {
    && (n == 0 || n < |progress|)
    && (forall i :: |progress| - n <= i < |progress| && i > 0 ==> Stuck(progress, i))
    && (n + 1 < |progress| ==> !Stuck(progress, |progress| - n - 1))
  }

  predicate WellCounted(d: Detector) {
    IsNoChangeRun(d.steps, d.noChangeRun) && IsStalledRun(d.progress, d.stalledRun)
  }

  /** No other number does. */
  ghost predicate CountedOneWay(d: Detector) {
    && (forall n :: IsNoChangeRun(d.steps, n) ==> n == d.noChangeRun)
    && (forall n :: IsStalledRun(d.progress, n) ==> n == d.stalledRun)
  }

  lemma {:induction false} StepKeepsCounts(d: Detector, sig: Signature)
    requires WellCounted(d)
    ensures WellCounted(StepObserved(d, sig).0)
  {
    hide DetectExactRepeat, DetectOscillation, ActedLately, IsStalledRun;
    var d' := StepObserved(d, sig).0;
    forall i | |d'.steps| - d'.noChangeRun <= i < |d'.steps| && i > 0
      ensures Unchanged(d'.steps, i)
    {
      if i < |d.steps| {
        assert Unchanged(d.steps, i);
      }
    }
  }

  lemma {:induction false} ProgressKeepsCounts(d: Detector, metric: Metric)
    requires WellCounted(d)
    ensures WellCounted(ProgressObserved(d, metric).0)
  {
    var d' := ProgressObserved(d, metric).0;
    forall i | |d'.progress| - d'.stalledRun <= i < |d'.progress| && i > 0
      ensures Stuck(d'.progress, i)
    {
      if i < |d.progress| {
        assert Stuck(d.progress, i);
      }
    }
  }

  /** Whatever is observed, and however the detectors short-circuit each other, both counters equal
      their definition over the whole recorded history, and nothing else does. */
  lemma {:induction false} CountersAreExact(config: Thresholds, history: seq<Observation>)
    ensures WellCounted(Feed(NewDetector(config), history))
    ensures CountedOneWay(Feed(NewDetector(config), history))
  {
    hide IsNoChangeRun, IsStalledRun;
    CountersHold(config, history);
    var d := Feed(NewDetector(config), history);
    forall n | IsNoChangeRun(d.steps, n)
      ensures n == d.noChangeRun
    {
      RunsAreUnique(d.steps, d.progress, n, d.noChangeRun);
    }
    forall n | IsStalledRun(d.progress, n)
      ensures n == d.stalledRun
    {
      RunsAreUnique(d.steps, d.progress, n, d.stalledRun);
    }
  }

  lemma {:induction false} CountersHold(config: Thresholds, history: seq<Observation>)
    ensures WellCounted(Feed(NewDetector(config), history))
  {
    if history != [] {
      var before := history[..|history| - 1];
      CountersHold(config, before);
      var d := Feed(NewDetector(config), before);
      match history[|history| - 1]
      case Passed =>
      case AfterRepair(fileState) => StepKeepsCounts(d, FileStateStep(fileState));
      case Cycle(fp, fileState, metric) =>
        StepKeepsCounts(d, FailureStep(fp, fileState));
        var d1 := StepObserved(d, FailureStep(fp, fileState)).0;
        ProgressKeepsCounts(FailureObserved(d1, Some(fp)).0, metric);
    }
  }

  /** The definition has at most one solution, so the counters are determined by the history. */
  lemma {:induction false} RunsAreUnique(steps: seq<Signature>, progress: seq<Metric>, n: nat, m: nat)
    ensures IsNoChangeRun(steps, n) && IsNoChangeRun(steps, m) ==> n == m
    ensures IsStalledRun(progress, n) && IsStalledRun(progress, m) ==> n == m
  {
    var lo, hi := if n < m then n else m, if n < m then m else n;
    if IsNoChangeRun(steps, hi) && lo < hi {
      assert Unchanged(steps, |steps| - lo - 1);
    }
    if IsStalledRun(progress, hi) && lo < hi {
      assert Stuck(progress, |progress| - lo - 1);
    }
  }

  // ---------------------------------------------------------------- when each detector reports

  lemma {:induction false} ConfigKept(d: Detector, history: seq<Observation>)
    ensures Feed(d, history).config == d.config
  {
    hide LeastPeriod, TrailingRun;
    if history != [] {
      ConfigKept(d, history[..|history| - 1]);
    }
  }

  /** Whatever was observed before: a snapshot is reported as a stall if and only if none of the last
      `stallAt` recorded ones, this one among them, shows progress over the one recorded before it. */
  lemma {:induction false} StallReportedIff(config: Thresholds, history: seq<Observation>, metric: Metric)
    requires config.stallAt > 0
    ensures var d := Feed(NewDetector(config), history);
      var recorded := d.progress + [metric];
      ProgressObserved(d, metric).1.Some? <==>
        && config.stallAt < |recorded|
        && forall i {:trigger recorded[i]} :: |recorded| - config.stallAt <= i < |recorded| ==>
             && recorded[i].frontier <= recorded[i - 1].frontier
             && recorded[i].failureCount >= recorded[i - 1].failureCount
             && |recorded[i].filesTouched| <= |recorded[i - 1].filesTouched|
    ensures var d := Feed(NewDetector(config), history);
      var f := ProgressObserved(d, metric).1;
      f.Some? ==> f.value.FrontierStalled? && IsStalledRun(d.progress + [metric], f.value.iterations)
  {
    hide Feed;
    var d := Feed(NewDetector(config), history);
    var recorded := d.progress + [metric];
    ConfigKept(NewDetector(config), history);
    CountersHold(config, history);
    ProgressKeepsCounts(d, metric);
    var n := ProgressObserved(d, metric).0.stalledRun;
    assert IsStalledRun(recorded, n);
    if n < config.stallAt < |recorded| {
      assert !Stuck(recorded, |recorded| - n - 1);
      assert |recorded| - config.stallAt <= |recorded| - n - 1 < |recorded|;
      var _ := recorded[|recorded| - n - 1];
    } else if n >= config.stallAt {
      forall i | |recorded| - config.stallAt <= i < |recorded|
        ensures && recorded[i].frontier <= recorded[i - 1].frontier
                && recorded[i].failureCount >= recorded[i - 1].failureCount
                && |recorded[i].filesTouched| <= |recorded[i - 1].filesTouched|
      {
        assert Stuck(recorded, i);
      }
    }
  }

  /** Every recorded snapshot is that of some diagnosis cycle so far. */
  lemma {:induction false} RecordedSnapshots(d: Detector, history: seq<Observation>)
    requires d.progress == []
    ensures forall m :: m in Feed(d, history).progress ==>
              exists a :: 0 <= a < |history| && history[a].Cycle? && history[a].metric == m
  {
    hide LeastPeriod, TrailingRun;
    if history != [] {
      var before, n := history[..|history| - 1], |history| - 1;
      RecordedSnapshots(d, before);
      forall m | m in Feed(d, history).progress
        ensures exists a :: 0 <= a < |history| && history[a].Cycle? && history[a].metric == m
      {
        if m in Feed(d, before).progress {
          var a :| 0 <= a < |before| && before[a].Cycle? && before[a].metric == m;
          assert history[a] == before[a];
        } else {
          assert history[n].Cycle? && history[n].metric == m;
        }
      }
    }
  }

  /** A task of which every diagnosis cycle is further than all those before it - a higher frontier, or fewer
      failures, or more touched files - is never told that it stalls, whatever else is observed. */
  lemma {:induction false} MovingNeverStalls(config: Thresholds, history: seq<Observation>, i: nat)
    requires config.stallAt > 0 && i < |history|
    requires forall a, b :: 0 <= a < b < |history| && history[a].Cycle? && history[b].Cycle? ==>
      || history[b].metric.frontier > history[a].metric.frontier
      || history[b].metric.failureCount < history[a].metric.failureCount
      || |history[b].metric.filesTouched| > |history[a].metric.filesTouched|
    ensures var f := Answer(NewDetector(config), history, i); f.Some? ==> !f.value.FrontierStalled?
  {
    hide StepObserved, FailureObserved, ProgressObserved, Feed;
    var before := history[..i];
    var d := Feed(NewDetector(config), before);
    match history[i]
    case Passed => NoStallBefore(d, FileStateStep(""), None);
    case AfterRepair(h) => NoStallBefore(d, FileStateStep(h), None);
    case Cycle(fp, h, metric) =>
      var d1 := StepObserved(d, FailureStep(fp, h)).0;
      var d2 := FailureObserved(d1, Some(fp)).0;
      NoStallBefore(d, FailureStep(fp, h), Some(fp));
      NoStallBefore(d1, FailureStep(fp, h), Some(fp));
      ConfigKept(NewDetector(config), before);
      CountersHold(config, before);
      RecordedSnapshots(NewDetector(config), before);
      if d.progress != [] {
        var last := d.progress[|d.progress| - 1];
        assert last in d.progress;
        var a :| 0 <= a < |before| && before[a].Cycle? && before[a].metric == last;
        assert before[a] == history[a];
      }
      ProgressIsNoStall(d2, metric);
  }

  /** The step and failure observations leave the snapshots alone and report no stall. */
  lemma {:induction false} NoStallBefore(d: Detector, sig: Signature, fp: Option<Fingerprint>)
    ensures var (d', f) := StepObserved(d, sig);
      && d'.config == d.config && d'.progress == d.progress && d'.stalledRun == d.stalledRun
      && (f.Some? ==> !f.value.FrontierStalled?)
    ensures var (d', f) := FailureObserved(d, fp);
      && d'.config == d.config && d'.progress == d.progress && d'.stalledRun == d.stalledRun
      && (f.Some? ==> !f.value.FrontierStalled?)
  {
    hide LeastPeriod, TrailingRun;
  }

  lemma {:induction false} ProgressIsNoStall(d: Detector, metric: Metric)
    requires d.config.stallAt > 0
    requires d.progress == [] ==> d.stalledRun == 0
    requires d.progress != [] ==>
      var prev := d.progress[|d.progress| - 1];
      || metric.frontier > prev.frontier
      || metric.failureCount < prev.failureCount
      || |metric.filesTouched| > |prev.filesTouched|
    ensures ProgressObserved(d, metric).1 == None
  {
  }

  /** The steps end in a run of `n + 1` with one file state, long enough to report, and one of them called a
      tool or made a patch. */
  predicate IdlesAfterActing(steps: seq<Signature>, n: nat, stallAt: nat) {
    && IsNoChangeRun(steps, n) && n + 1 >= stallAt
    && exists i :: 0 <= i < |steps| && |steps| - n - 1 <= i && (steps[i].key.toolCall.Some? || steps[i].key.patchHash.Some?)
  }

  /** The last `n` steps are one and the same, and it is distinctive: a tool call, a patch or an error. */
  predicate EndsInRepeats(steps: seq<Signature>, n: nat) {
    && steps != [] && n <= |steps|
    && var last := steps[|steps| - 1].key;
       && (last.toolCall.Some? || last.patchHash.Some? || last.error.Some?)
       && forall i :: |steps| - n <= i < |steps| ==> steps[i].key == last
  }

  lemma {:induction false} RepeatsFound(d: Detector)
    ensures DetectExactRepeat(d).Some? <==> EndsInRepeats(d.steps, d.config.exactRepeatAt)
    ensures var f := DetectExactRepeat(d);
      f.Some? ==> f.value.ExactRepeat? && f.value.key == d.steps[|d.steps| - 1].key && IsRunOf(Keys(d.steps), f.value.key, f.value.count)
  {
    if d.steps != [] {
      var keys := Keys(d.steps);
      var n := TrailingRun(keys, keys[|keys| - 1]);
      assert n < d.config.exactRepeatAt <= |keys| ==> d.steps[|keys| - n - 1].key != keys[|keys| - 1];
    }
  }

  lemma {:induction false} IdlingFound(d: Detector, sig: Signature, n: nat)
    requires WellCounted(d)
    ensures var d' := StepObserved(d, sig).0;
      IdlesAfterActing(d'.steps, n, d.config.stallAt) <==>
        n == d'.noChangeRun && n + 1 >= d.config.stallAt && ActedLately(d'.steps, n + 1)
  {
    hide IsNoChangeRun, IsStalledRun;
    var d' := StepObserved(d, sig).0;
    StepKeepsCounts(d, sig);
    if IsNoChangeRun(d'.steps, n) {
      RunsAreUnique(d'.steps, d'.progress, n, d'.noChangeRun);
    }
    assert ActedLately(d'.steps, n + 1) <==> exists i ::
      0 <= i < |d'.steps| && |d'.steps| - n - 1 <= i && (d'.steps[i].key.toolCall.Some? || d'.steps[i].key.patchHash.Some?) by {
      if ActedLately(d'.steps, n + 1) {
        var i :| 0 <= i < |d'.steps| && |d'.steps| - (n + 1) <= i && d'.steps[i].Acts();
      }
    }
  }

  /** Which of its three findings a step is reported with, if with any: idling first, then a repeat, then the
      shortest cycle. */
  lemma {:induction false} StepReportsExactly(d: Detector, sig: Signature, n: nat)
    requires WellCounted(d)
    ensures var steps := d.steps + [sig]; var c := d.config; var f := StepObserved(d, sig).1;
      var idles := exists m: nat :: IdlesAfterActing(steps, m, c.stallAt);
      && (f == Some(NoChangeIteration(n + 1)) <==> IdlesAfterActing(steps, n, c.stallAt))
      && (f.Some? && f.value.NoChangeIteration? <==> idles)
      && (f.Some? && f.value.ExactRepeat? <==> !idles && EndsInRepeats(steps, c.exactRepeatAt))
      && (f == Some(Oscillation(n)) <==>
            && !idles && !EndsInRepeats(steps, c.exactRepeatAt)
            && 1 <= n <= c.maxPeriod && EndsInCycle(Keys(steps), n)
            && forall q :: 1 <= q < n ==> !EndsInCycle(Keys(steps), q))
  {
    hide DetectExactRepeat, DetectOscillation, EndsInCycle, EndsInRepeats, IdlesAfterActing, ActedLately, WellCounted;
    var d' := StepObserved(d, sig).0;
    RepeatsFound(d');
    RepeatOrCycle(d', n);
    forall m: nat
      ensures IdlesAfterActing(d'.steps, m, d.config.stallAt) <==>
              m == d'.noChangeRun && m + 1 >= d.config.stallAt && ActedLately(d'.steps, m + 1)
    {
      IdlingFound(d, sig, m);
    }
    OscillationIsExactAndPrimitive(d', n);
    var m := d'.noChangeRun;
    var idles := IdlesAfterActing(d'.steps, m, d.config.stallAt);
    assert idles <==> m + 1 >= d.config.stallAt && ActedLately(d'.steps, m + 1);
    assert StepObserved(d, sig).1 ==
      if idles then Some(NoChangeIteration(m + 1))
      else if DetectExactRepeat(d').Some? then DetectExactRepeat(d') else DetectOscillation(d');
  }

  lemma {:induction false} RepeatOrCycle(d: Detector, n: nat)
    ensures DetectExactRepeat(d).Some? ==> DetectExactRepeat(d).value.ExactRepeat?
    ensures DetectOscillation(d).Some? ==> DetectOscillation(d).value.Oscillation?
  {
    hide LeastPeriod, TrailingRun;
  }

  /** A failure is reported if and only if it and those right before it, as many as the threshold asks for
      in all, are the same; and a passing check forgets the failures and nothing else. */
  lemma {:induction false} FailureReportedIff(d: Detector, fp: Fingerprint)
    ensures var failures := d.failures + [fp];
      && FailureObserved(d, Some(fp)).0 == d.(failures := failures)
      && (FailureObserved(d, Some(fp)).1.Some? <==>
            && d.config.repeatedFailureAt <= |failures|
            && forall i :: |failures| - d.config.repeatedFailureAt <= i < |failures| ==> failures[i] == fp)
    ensures var failures := d.failures + [fp]; var f := FailureObserved(d, Some(fp)).1;
      f.Some? ==> f.value.RepeatedFailure? && f.value.fingerprint == fp && IsRunOf(failures, fp, f.value.count)
    ensures Observe(d, Passed) == (d.(failures := []), None)
  {
    var failures := d.failures + [fp];
    var n := TrailingRun(failures, fp);
    assert n < |failures| ==> failures[|failures| - n - 1] != fp;
  }

  /** The last `n` elements are `x`, and the one before them is not. */
  predicate IsRunOf<T(==)>(s: seq<T>, x: T, n: nat) {
    n <= |s| && (forall i :: |s| - n <= i < |s| ==> s[i] == x) && (n < |s| ==> s[|s| - n - 1] != x)
  }

  /** After a repair turn only a bare step with the file state is recorded. */
  lemma {:induction false} BareStepRecorded(d: Detector, fileState: Hash)
    ensures var bare := Signature(StepKey(None, None, None, Some(fileState)), None);
      && Observe(d, AfterRepair(fileState)) == StepObserved(d, bare)
      && Observe(d, AfterRepair(fileState)).0.steps == d.steps + [bare]
  {
    hide DetectExactRepeat, DetectOscillation, ActedLately;
  }

  /** What one diagnosis cycle records and reports: the step always; the failure only if the step was not
      reported; the snapshot only if the failure was not reported either. */
  lemma {:induction false} CycleRecords(d: Detector, fp: Fingerprint, fileState: Hash, metric: Metric)
    ensures var (d', f) := Observe(d, Cycle(fp, fileState, metric)); var failures := d.failures + [fp];
      var step := StepObserved(d, Signature(StepKey(None, None, Some(fp), Some(fileState)), None)).1;
      var again := d.config.repeatedFailureAt <= |failures|
                   && forall i :: |failures| - d.config.repeatedFailureAt <= i < |failures| ==> failures[i] == fp;
      && d'.steps == d.steps + [Signature(StepKey(None, None, Some(fp), Some(fileState)), None)]
      && d'.failures == (if step.Some? then d.failures else failures)
      && d'.progress == (if step.Some? || again then d.progress else d.progress + [metric])
      && (step.Some? || again ==> d'.stalledRun == d.stalledRun)
      && (step.Some? ==> f == step)
      && (step.None? && f.Some? ==> if again then f.value.RepeatedFailure? else f.value.FrontierStalled?)
      && (step.None? && again ==> f.Some?)
  {
    hide TrailingRun, DetectExactRepeat, DetectOscillation, ActedLately;
    FailureReportedIff(StepObserved(d, FailureStep(fp, fileState)).0, fp);
  }

  // ---------------------------------------------------------------- no silent spinning

  function CyclesIn(history: seq<Observation>): nat {
    if history == [] then 0
    else CyclesIn(history[..|history| - 1]) + (if history[|history| - 1].Cycle? then 1 else 0)
  }

  /** Nothing but diagnosis cycles with fingerprint `fp` and the steps after repair turns. */
  predicate SameFailureThroughout(history: seq<Observation>, fp: Fingerprint) {
    forall i :: 0 <= i < |history| ==> match history[i] case Cycle(f, _, _) => f == fp case Passed => false case AfterRepair(_) => true
  }

  predicate Silent(d: Detector, history: seq<Observation>) {
    forall i :: 0 <= i < |history| && history[i].Cycle? ==> Answer(d, history, i) == None
  }

  lemma {:induction false} SilentPrefix(d: Detector, history: seq<Observation>, prefix: seq<Observation>)
    requires Silent(d, history) && prefix <= history
    ensures Silent(d, prefix)
  {
    hide Feed, Observe;
    forall i | 0 <= i < |prefix| && prefix[i].Cycle?
      ensures Answer(d, prefix, i) == None
    {
      assert prefix[..i] == history[..i];
      assert Answer(d, history, i) == None;
    }
  }

  /** A cycle that reports nothing has pushed its fingerprint, and the run of it is still short. */
  lemma {:induction false} SilentCyclePushes(d: Detector, fp: Fingerprint, fileState: Hash, metric: Metric)
    requires Observe(d, Cycle(fp, fileState, metric)).1 == None
    ensures var d' := Observe(d, Cycle(fp, fileState, metric)).0;
      && d'.failures == d.failures + [fp] && d'.config == d.config
      && TrailingRun(d'.failures, fp) == TrailingRun(d.failures, fp) + 1 < d.config.repeatedFailureAt
  {
    hide LeastPeriod;
    assert (d.failures + [fp])[..|d.failures|] == d.failures;
  }

  lemma {:induction false} SilentCyclesPileUp(d: Detector, history: seq<Observation>, fp: Fingerprint)
    requires SameFailureThroughout(history, fp) && Silent(d, history)
    ensures TrailingRun(Feed(d, history).failures, fp) >= CyclesIn(history)
    ensures Feed(d, history).config == d.config
    ensures history != [] && history[|history| - 1].Cycle? ==> CyclesIn(history) < d.config.repeatedFailureAt
  {
    hide CycleObserved, LeastPeriod, DetectExactRepeat;
    if history != [] {
      var before, last := history[..|history| - 1], history[|history| - 1];
      SilentPrefix(d, history, before);
      SilentCyclesPileUp(d, before, fp);
      if last.Cycle? {
        assert Answer(d, history, |before|) == None;
        SilentCyclePushes(Feed(d, before), fp, last.fileState, last.metric);
      }
    }
  }

  /** A stalled agent never spins silently: as many consecutive diagnosis cycles with one fingerprint
      as the threshold asks for (three by default), with no passing check among them, contain one that
      reports a finding - from any detector state, and although a finding of an earlier detector keeps
      the later ones from observing that cycle. */
  lemma {:induction false} NoSilentSpinning(d: Detector, history: seq<Observation>, fp: Fingerprint)
    requires SameFailureThroughout(history, fp)
    requires 0 < d.config.repeatedFailureAt <= CyclesIn(history)
    ensures exists i :: 0 <= i < |history| && history[i].Cycle? && Answer(d, history, i).Some?
  {
    hide Feed, Observe, TrailingRun, CyclesIn;
    if Silent(d, history) {
      var upToLast := UpToLastCycle(history);
      SilentPrefix(d, history, upToLast);
      SilentCyclesPileUp(d, upToLast, fp);
    }
  }

  lemma {:induction false} UpToLastCycle(history: seq<Observation>) returns (prefix: seq<Observation>)
    requires CyclesIn(history) > 0
    ensures prefix != [] && prefix <= history && prefix[|prefix| - 1].Cycle?
    ensures CyclesIn(prefix) == CyclesIn(history)
  {
    if history[|history| - 1].Cycle? {
      prefix := history;
    } else {
      prefix := UpToLastCycle(history[..|history| - 1]);
    }
  }

  // ---------------------------------------------------------------- a detector that cannot fire

  predicate NothingActed(steps: seq<Signature>) {
    forall i :: 0 <= i < |steps| ==> !steps[i].Acts()
  }

  lemma {:induction false} FedStepsNeverAct(config: Thresholds, history: seq<Observation>)
    ensures NothingActed(Feed(NewDetector(config), history).steps)
  {
    hide LeastPeriod, TrailingRun, DetectExactRepeat, DetectOscillation;
    if history != [] {
      FedStepsNeverAct(config, history[..|history| - 1]);
    }
  }

  lemma {:induction false} IdleStepsAreNotFlagged(d: Detector, sig: Signature)
    requires NothingActed(d.steps) && !sig.Acts()
    ensures var f := StepObserved(d, sig).1; f.Some? ==> !f.value.NoChangeIteration?
  {
    hide LeastPeriod, TrailingRun;
  }

  /** The driver's signatures carry neither a tool call nor a patch, so whatever the thresholds the
      no-change detector never reports anything to it - however long the files stay the same. */
  lemma {:induction false} NoChangeNeverReported(config: Thresholds, history: seq<Observation>, i: nat)
    requires i < |history|
    ensures var a := Answer(NewDetector(config), history, i); a.Some? ==> !a.value.NoChangeIteration?
  {
    hide StepObserved;
    FedStepsNeverAct(config, history[..i]);
    var d := Feed(NewDetector(config), history[..i]);
    match history[i]
    case Passed =>
    case AfterRepair(h) => IdleStepsAreNotFlagged(d, FileStateStep(h));
    case Cycle(fp, h, _) => IdleStepsAreNotFlagged(d, FailureStep(fp, h));
  }

  // ---------------------------------------------------------------- oscillation

  /** Ending in a cycle of length `p`: of the last `3 * p` keys each is the one `p` places before it, and two
      of the first `p` differ. */
  lemma {:induction false} CycleMeans<T>(keys: seq<T>, p: nat)
    ensures EndsInCycle(keys, p) <==>
      && 3 * p <= |keys|
      && var tail := keys[|keys| - 3 * p..];
         && (forall i :: p <= i < 3 * p ==> tail[i] == tail[i - p])
         && (exists i, j :: 0 <= i < j < p && tail[i] != tail[j])
  {
    if 1 <= p && 3 * p <= |keys| {
      var tail := keys[|keys| - 3 * p..];
      ThriceMeans(tail, p);
      DifferMeans(tail, p);
    }
  }

  lemma {:induction false} ThriceMeans<T>(tail: seq<T>, p: nat)
    requires |tail| == 3 * p
    ensures tail == tail[..p] + tail[..p] + tail[..p] <==> forall i :: p <= i < 3 * p ==> tail[i] == tail[i - p]
  {
    var block := tail[..p];
    var thrice := block + block + block;
    assert forall i :: p <= i < 3 * p ==> thrice[i] == thrice[i - p];
    if forall i :: p <= i < 3 * p ==> tail[i] == tail[i - p] {
      forall i | 0 <= i < 3 * p
        ensures tail[i] == thrice[i]
      {
        var first := if i < p then i else if i < 2 * p then i - p else i - 2 * p;
        assert i >= 2 * p ==> tail[i - p] == tail[i - p - p];
        assert tail[i] == tail[first];
      }
    }
  }

  lemma {:induction false} DifferMeans<T>(tail: seq<T>, p: nat)
    requires 1 <= p <= |tail|
    ensures !Constant(tail[..p]) <==> exists i, j :: 0 <= i < j < p && tail[i] != tail[j]
  {
    var block := tail[..p];
    if !Constant(block) {
      var j :| 0 <= j < p && block[j] != block[0];
      assert 0 < j && tail[0] != tail[j];
    } else {
      assert forall i :: 0 <= i < p ==> tail[i] == block[i] == tail[0];
    }
  }

  function Power<T>(u: seq<T>, m: nat): (s: seq<T>)
    ensures |s| == m * |u|
  {
    if m == 0 then [] else Power(u, m - 1) + u
  }

  lemma {:induction false} BlockEnds(m: nat, k: nat, q: nat)
    requires k < m
    ensures k * q + q <= m * q
  {
    assert m * q == (m - 1) * q + q;
    if k < m - 1 {
      BlockEnds(m - 1, k, q);
    }
  }

  lemma {:induction false} PowerAt<T>(u: seq<T>, m: nat, k: nat, j: nat)
    requires k < m && j < |u|
    ensures k * |u| + j < |Power(u, m)|
    ensures Power(u, m)[k * |u| + j] == u[j]
  {
    BlockEnds(m, k, |u|);
    if k < m - 1 {
      PowerAt(u, m - 1, k, j);
      assert Power(u, m)[k * |u| + j] == Power(u, m - 1)[k * |u| + j];
    } else {
      assert |Power(u, m - 1)| == k * |u|;
    }
  }

  lemma {:induction false} PowerSum<T>(u: seq<T>, a: nat, b: nat)
    ensures Power(u, a) + Power(u, b) == Power(u, a + b)
  {
    if b > 0 {
      PowerSum(u, a, b - 1);
      assert Power(u, a) + Power(u, b) == (Power(u, a) + Power(u, b - 1)) + u;
    }
  }

  /** Position `i` of `m` blocks of length `q` is position `j` of block `k`. */
  lemma {:induction false} Locate(i: nat, m: nat, q: nat) returns (k: nat, j: nat)
    requires i < m * q
    ensures k < m && j < q && i == k * q + j
  {
    assert m * q == (m - 1) * q + q;
    if i >= (m - 1) * q {
      k, j := m - 1, i - (m - 1) * q;
    } else {
      k, j := Locate(i, m - 1, q);
    }
  }

  lemma {:induction false} ConstantPower<T>(u: seq<T>, m: nat)
    requires Constant(u)
    ensures Constant(Power(u, m))
  {
    forall i | 0 <= i < |Power(u, m)|
      ensures Power(u, m)[i] == u[0]
    {
      var k, j := Locate(i, m, |u|);
      PowerAt(u, m, k, j);
    }
  }

  lemma {:induction false} ThreePowers<T>(u: seq<T>, m: nat)
    ensures Power(u, m) + Power(u, m) + Power(u, m) == Power(u, m + m + m)
  {
    PowerSum(u, m, m);
    PowerSum(u, m + m, m);
  }

  lemma {:induction false} EndsWithThree<T>(u: seq<T>, n: nat) returns (front: seq<T>)
    requires n >= 3
    ensures Power(u, n) == front + (u + u + u)
  {
    front := Power(u, n - 3);
    assert Power(u, n - 2) == front + u;
    assert Power(u, n - 1) == front + u + u;
  }

  lemma {:induction false} SuffixCycle<T>(keys: seq<T>, front: seq<T>, u: seq<T>)
    requires |u| >= 1 && !Constant(u) && keys == front + (u + u + u)
    ensures EndsInCycle(keys, |u|)
  {
    assert keys[|keys| - 3 * |u|..] == u + u + u;
    assert (u + u + u)[..|u|] == u;
  }

  lemma {:induction false} PowerLonger<T>(u: seq<T>, m: nat)
    requires m >= 2 && |u| >= 1
    ensures |u| < |Power(u, m)|
  {
    if m == 2 {
      assert Power(u, 1) == u;
    } else {
      PowerLonger(u, m - 1);
    }
  }

  /** If the repeated block were a power of a shorter block, the keys would already end in a cycle
      of that shorter length. */
  lemma {:induction false} ShorterCycle<T>(keys: seq<T>, p: nat, u: seq<T>, m: nat)
    requires EndsInCycle(keys, p) && m >= 2 && |u| >= 1
    requires keys[|keys| - 3 * p..][..p] == Power(u, m)
    ensures |u| < p && EndsInCycle(keys, |u|)
  {
    hide Power;
    var block := keys[|keys| - 3 * p..][..p];
    PowerLonger(u, m);
    ThreePowers(u, m);
    var front := EndsWithThree(u, m + m + m);
    if Constant(u) {
      ConstantPower(u, m);
    }
    var head := keys[..|keys| - 3 * p];
    assert keys == head + (block + block + block);
    assert keys == (head + front) + (u + u + u);
    SuffixCycle(keys, head + front, u);
  }

  /** The oscillation detector is exact: it reports `p` if and only if `p` is the least period, up to
      the configured maximum, in which the step keys end; and a reported block is primitive. */
  lemma {:induction false} OscillationIsExactAndPrimitive(d: Detector, p: nat)
    ensures DetectOscillation(d) == Some(Oscillation(p)) <==>
            && 1 <= p <= d.config.maxPeriod
            && EndsInCycle(Keys(d.steps), p)
            && forall q :: 1 <= q < p ==> !EndsInCycle(Keys(d.steps), q)
    ensures DetectOscillation(d) == Some(Oscillation(p)) ==>
              forall u: seq<StepKey>, m: nat :: m >= 2 && |u| >= 1 ==>
                Keys(d.steps)[|d.steps| - 3 * p..][..p] != Power(u, m)
  {
    var keys := Keys(d.steps);
    if DetectOscillation(d) == Some(Oscillation(p)) {
      forall u: seq<StepKey>, m: nat | m >= 2 && |u| >= 1
        ensures keys[|keys| - 3 * p..][..p] != Power(u, m)
      {
        if keys[|keys| - 3 * p..][..p] == Power(u, m) {
          ShorterCycle(keys, p, u, m);
          assert false;
        }
      }
    }
  }
}
