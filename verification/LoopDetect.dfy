/** Loop and progress detection: five detectors over the recorded steps, failures and progress
    snapshots of one task. The datatype `Detector` is the value of a detector, the functions on it
    say what each observation does, and the class `LoopDetector` is the mutable object. */
module LoopDetect {
  import opened Options

  type Fingerprint = string
  type Hash = string
  type Path = string

  /** What a step is compared by; the context hash is not part of it. */
  datatype StepKey = StepKey(toolCall: Option<string>, patchHash: Option<Hash>,
                             error: Option<Fingerprint>, fileState: Option<Hash>)

  datatype Signature = Signature(key: StepKey, contextHash: Option<Hash>) {
    /** A step with a tool call or a patch did something to the workspace. */
    predicate Acts() {
      key.toolCall.Some? || key.patchHash.Some?
    }

    predicate Distinctive() {
      Acts() || key.error.Some?
    }
  }

  datatype Metric = Metric(frontier: nat, failureCount: nat, filesTouched: set<Path>) {
    predicate AdvancedSince(prev: Metric) {
      || frontier > prev.frontier
      || failureCount < prev.failureCount
      || |filesTouched| > |prev.filesTouched|
    }
  }

  datatype Finding =
    | ExactRepeat(key: StepKey, count: nat)
    | Oscillation(period: nat)
    | RepeatedFailure(fingerprint: Fingerprint, count: nat)
    | NoChangeIteration(iterations: nat)
    | FrontierStalled(iterations: nat)

  datatype Thresholds = Thresholds(exactRepeatAt: nat, maxPeriod: nat, repeatedFailureAt: nat, stallAt: nat)

  const DEFAULT_THRESHOLDS := Thresholds(3, 3, 3, 3)

  datatype Detector = Detector(config: Thresholds, steps: seq<Signature>, failures: seq<Fingerprint>,
                               progress: seq<Metric>, noChangeRun: nat, stalledRun: nat)

  function NewDetector(config: Thresholds): Detector {
    Detector(config, [], [], [], 0, 0)
  }

  /** Both steps recorded a file state, and it is the same one. */
  predicate SameFileState(a: Signature, b: Signature) {
    a.key.fileState.Some? && a.key.fileState == b.key.fileState
  }

  /** How many elements at the end of `s` equal `x`. */
  function TrailingRun<T(==)>(s: seq<T>, x: T): (n: nat)
    ensures n <= |s|
    ensures forall i :: |s| - n <= i < |s| ==> s[i] == x
    ensures n < |s| ==> s[|s| - n - 1] != x
  {
    if s == [] || s[|s| - 1] != x then 0 else 1 + TrailingRun(s[..|s| - 1], x)
  }

  function Keys(steps: seq<Signature>): (keys: seq<StepKey>)
    ensures |keys| == |steps|
    ensures forall i :: 0 <= i < |keys| ==> keys[i] == steps[i].key
  {
    seq(|steps|, i requires 0 <= i < |steps| => steps[i].key)
  }

  // ---------------------------------------------------------------- cycles in the step keys

  predicate Constant<T(==)>(block: seq<T>) {
    forall i :: 0 <= i < |block| ==> block[i] == block[0]
  }

  /** The last `3 * period` keys are one non-constant block of length `period`, three times over. */
  predicate EndsInCycle<T(==)>(keys: seq<T>, period: nat) {
    && 1 <= period
    && 3 * period <= |keys|
    && var tail := keys[|keys| - 3 * period..];
       !Constant(tail[..period]) && tail == tail[..period] + tail[..period] + tail[..period]
  }

  /** The least period in `from..=max` the keys end in. */
  function LeastPeriod<T(==)>(keys: seq<T>, from: nat, max: nat): (r: Option<nat>)
    ensures r.Some? ==> from <= r.value <= max && EndsInCycle(keys, r.value)
    ensures forall q {:trigger EndsInCycle(keys, q)} ::
              from <= q <= max && (r.Some? ==> q < r.value) ==> !EndsInCycle(keys, q)
    decreases max + 1 - from
  {
    if from > max then None
    else if EndsInCycle(keys, from) then Some(from)
    else LeastPeriod(keys, from + 1, max)
  }

  // ---------------------------------------------------------------- what each observation does

  function NoChangeRunAfter(d: Detector, sig: Signature): nat {
    if d.steps != [] && SameFileState(d.steps[|d.steps| - 1], sig) then d.noChangeRun + 1 else 0
  }

  /** One of the last `n` steps acted on the workspace. */
  predicate ActedLately(steps: seq<Signature>, n: nat) {
    exists i :: 0 <= i < |steps| && |steps| - n <= i && steps[i].Acts()
  }

  function DetectExactRepeat(d: Detector): Option<Finding> {
    if d.steps == [] || !d.steps[|d.steps| - 1].Distinctive() then None
    else
      var key := d.steps[|d.steps| - 1].key;
      var run := TrailingRun(Keys(d.steps), key);
      if run >= d.config.exactRepeatAt then Some(ExactRepeat(key, run)) else None
  }

  function DetectOscillation(d: Detector): Option<Finding> {
    match LeastPeriod(Keys(d.steps), 1, d.config.maxPeriod)
    case None => None
    case Some(p) => Some(Oscillation(p))
  }

  function StepObserved(d: Detector, sig: Signature): (Detector, Option<Finding>) {
    var run := NoChangeRunAfter(d, sig);
    var d' := d.(steps := d.steps + [sig], noChangeRun := run);
    (d',
     if run + 1 >= d.config.stallAt && ActedLately(d'.steps, run + 1) then Some(NoChangeIteration(run + 1))
     else if DetectExactRepeat(d').Some? then DetectExactRepeat(d')
     else DetectOscillation(d'))
  }

  function FailureObserved(d: Detector, fingerprint: Option<Fingerprint>): (Detector, Option<Finding>) {
    match fingerprint
    case None => (d.(failures := []), None)
    case Some(fp) =>
      var d' := d.(failures := d.failures + [fp]);
      var n := TrailingRun(d'.failures, fp);
      (d', if n >= d.config.repeatedFailureAt then Some(RepeatedFailure(fp, n)) else None)
  }

  function ProgressObserved(d: Detector, metric: Metric): (Detector, Option<Finding>) {
    var run := if d.progress == [] then d.stalledRun
               else if metric.AdvancedSince(d.progress[|d.progress| - 1]) then 0
               else d.stalledRun + 1;
    (d.(progress := d.progress + [metric], stalledRun := run),
     if run >= d.config.stallAt then Some(FrontierStalled(run)) else None)
  }

  /** One diagnosis cycle of the driver: the three observations, each made only if the ones before
      it found nothing. */
  function CycleObserved(d: Detector, sig: Signature, fp: Fingerprint, metric: Metric): (Detector, Option<Finding>) {
    var (d1, f1) := StepObserved(d, sig);
    if f1.Some? then (d1, f1) else
    var (d2, f2) := FailureObserved(d1, Some(fp));
    if f2.Some? then (d2, f2) else
    ProgressObserved(d2, metric)
  }

  // ---------------------------------------------------------------- histories

  /** What the driver feeds its detector: a diagnosis cycle, a passing check, or the bare file-state
      step that follows a repair turn. */
  datatype Observation =
    | Cycle(fingerprint: Fingerprint, fileState: Hash, metric: Metric)
    | Passed
    | AfterRepair(fileStateNow: Hash)

  function FailureStep(fp: Fingerprint, fileState: Hash): Signature {
    Signature(StepKey(None, None, Some(fp), Some(fileState)), None)
  }

  function FileStateStep(fileState: Hash): Signature {
    Signature(StepKey(None, None, None, Some(fileState)), None)
  }

  function Observe(d: Detector, o: Observation): (Detector, Option<Finding>) {
    match o
    case Cycle(fp, fileState, metric) => CycleObserved(d, FailureStep(fp, fileState), fp, metric)
    case Passed => FailureObserved(d, None)
    case AfterRepair(fileState) => StepObserved(d, FileStateStep(fileState))
  }

  function Feed(d: Detector, history: seq<Observation>): Detector {
    if history == [] then d
    else Observe(Feed(d, history[..|history| - 1]), history[|history| - 1]).0
  }

  /** What the detector answers to the observation at `i`. */
  function Answer(d: Detector, history: seq<Observation>, i: nat): Option<Finding>
    requires i < |history|
  {
    Observe(Feed(d, history[..i]), history[i]).1
  }

  lemma {:induction false} FeedNothing(d: Detector)
    ensures Feed(d, []) == d
  {
  }

  lemma {:induction false} PassedIsFailureNone(d: Detector)
    ensures Observe(d, Passed) == FailureObserved(d, None)
  {
  }

  lemma {:induction false} FeedOne(d: Detector, history: seq<Observation>, o: Observation)
    ensures Feed(d, history + [o]) == Observe(Feed(d, history), o).0
  {
    assert (history + [o])[..|history|] == history;
  }

  // ---------------------------------------------------------------- the mutable object

  class LoopDetector {
    const config: Thresholds
    var steps: seq<Signature>
    var failures: seq<Fingerprint>
    var progress: seq<Metric>
    var noChangeRun: nat
    var stalledRun: nat

    function Value(): Detector
      reads this
    {
      Detector(config, steps, failures, progress, noChangeRun, stalledRun)
    }

    /** A copy of the detector with value `d` (the driver clones its detector out and back). */
    constructor (d: Detector)
      ensures Value() == d
    {
      config, steps, failures, progress := d.config, d.steps, d.failures, d.progress;
      noChangeRun, stalledRun := d.noChangeRun, d.stalledRun;
    }

    method ObserveStep(sig: Signature) returns (finding: Option<Finding>)
      modifies this
      ensures (Value(), finding) == StepObserved(old(Value()), sig)
    {
      if steps != [] && steps[|steps| - 1].key.fileState.Some? && sig.key.fileState.Some? {
        if steps[|steps| - 1].key.fileState == sig.key.fileState {
          noChangeRun := noChangeRun + 1;
        } else {
          noChangeRun := 0;
        }
      } else {
        noChangeRun := 0;
      }
      steps := steps + [sig];

      if noChangeRun + 1 >= config.stallAt {
        var acted := AnyActed(noChangeRun + 1);
        if acted {
          return Some(NoChangeIteration(noChangeRun + 1));
        }
      }
      finding := RepeatedStep();
      if finding == None {
        finding := OscillatingSteps();
      }
    }

    method AnyActed(n: nat) returns (found: bool)
      ensures found == ActedLately(steps, n)
    {
      var i := |steps|;
      while i > 0 && |steps| - i < n
        invariant 0 <= i <= |steps|
        invariant |steps| - i <= n
        invariant forall k :: i <= k < |steps| ==> !steps[k].Acts()
      {
        i := i - 1;
        if steps[i].Acts() {
          return true;
        }
      }
      return false;
    }

    method ObserveFailure(fingerprint: Option<Fingerprint>) returns (finding: Option<Finding>)
      modifies this
      ensures (Value(), finding) == FailureObserved(old(Value()), fingerprint)
    {
      match fingerprint
      case None =>
        failures := [];
        finding := None;
      case Some(fp) =>
        failures := failures + [fp];
        var n := CountTrailing(failures, fp);
        finding := if n >= config.repeatedFailureAt then Some(RepeatedFailure(fp, n)) else None;
    }

    method ObserveProgress(metric: Metric) returns (finding: Option<Finding>)
      modifies this
      ensures (Value(), finding) == ProgressObserved(old(Value()), metric)
    {
      if progress != [] {
        if metric.AdvancedSince(progress[|progress| - 1]) {
          stalledRun := 0;
        } else {
          stalledRun := stalledRun + 1;
        }
      }
      progress := progress + [metric];
      finding := if stalledRun >= config.stallAt then Some(FrontierStalled(stalledRun)) else None;
    }

    method RepeatedStep() returns (finding: Option<Finding>)
      ensures finding == DetectExactRepeat(Value())
    {
      if steps == [] || !steps[|steps| - 1].Distinctive() {
        return None;
      }
      var key := steps[|steps| - 1].key;
      var run := CountTrailing(Keys(steps), key);
      finding := if run >= config.exactRepeatAt then Some(ExactRepeat(key, run)) else None;
    }

    method OscillatingSteps() returns (finding: Option<Finding>)
      ensures finding == DetectOscillation(Value())
    {
      var keys := Keys(steps);
      var period := 1;
      while period <= config.maxPeriod
        invariant 1 <= period
        invariant LeastPeriod(keys, 1, config.maxPeriod) == LeastPeriod(keys, period, config.maxPeriod)
        decreases config.maxPeriod + 1 - period
      {
        if |keys| >= period * 3 {
          var tail := keys[|keys| - period * 3..];
          var cycle := tail[..period];
          if !Constant(cycle) {
            var all := AllChunksEqual(tail, cycle);
            if all {
              return Some(Oscillation(period));
            }
          }
        }
        period := period + 1;
      }
      finding := None;
    }
  }

  method CountTrailing<T(==)>(s: seq<T>, x: T) returns (n: nat)
    ensures n == TrailingRun(s, x)
  {
    n := 0;
    while n < |s| && s[|s| - n - 1] == x
      invariant n <= |s|
      invariant TrailingRun(s, x) == n + TrailingRun(s[..|s| - n], x)
    {
      assert s[..|s| - n][..|s| - n - 1] == s[..|s| - n - 1];
      n := n + 1;
    }
  }

  /** `tail` has three chunks the length of `cycle`; are they all equal to it? */
  method AllChunksEqual<T(==)>(tail: seq<T>, cycle: seq<T>) returns (all: bool)
    requires |tail| == 3 * |cycle|
    ensures all == (tail == cycle + cycle + cycle)
  {
    ThreeChunks(tail, cycle);
    var k := 0;
    while k < 3
      invariant 0 <= k <= 3
      invariant forall j :: 0 <= j < k ==> Chunk(tail, |cycle|, j) == cycle
    {
      if Chunk(tail, |cycle|, k) != cycle {
        return false;
      }
      k := k + 1;
    }
    return true;
  }

  lemma {:induction false} ThreeChunks<T>(tail: seq<T>, cycle: seq<T>)
    requires |tail| == 3 * |cycle|
    ensures tail == cycle + cycle + cycle <==> forall k :: 0 <= k < 3 ==> Chunk(tail, |cycle|, k) == cycle
  {
    var n := |cycle|;
    assert tail == Chunk(tail, n, 0) + Chunk(tail, n, 1) + Chunk(tail, n, 2);
    assert (cycle + cycle + cycle)[n..2 * n] == cycle && (cycle + cycle + cycle)[2 * n..] == cycle;
  }

  function Chunk<T>(s: seq<T>, size: nat, k: nat): seq<T>
    requires k < 3 && |s| == 3 * size
  {
    s[k * size..(k + 1) * size]
  }
}
