/** Prompt assembly: candidates are partitioned by section, the budget is allocated to what they demand,
    and each is fitted into what is left of its section and of the whole. */
module Assemble {
  import opened Options
  import opened Sequences
  import opened Compress
  import B = Budget

  const UNLIMITED: nat := B.USIZE_MAX / 4
  const HEADER_SLACK: nat := 24
  const WARN_SLACK: nat := 40

  datatype Trust = Policy | Instruction | Evidence | RepoData | ModelOutput {
    predicate RequiresFencing() {
      !Policy? && !Instruction?
    }
  }

  datatype Candidate = Candidate(trust: Trust, section: B.Kind, relevance: int, name: string, content: Content)

  /** A placed candidate, with what it was charged. */
  datatype Item = Item(candidate: Candidate, rendered: Rendered, overhead: nat) {
    function Cost(): nat {
      rendered.tokens + overhead
    }
  }

  datatype Dropped = Dropped(candidate: Candidate, cap: nat)

  datatype Outcome =
    | Assembled(items: seq<Item>, dropped: seq<Dropped>, allocation: map<B.Kind, nat>, accounted: nat)
    | AllocationFailed(error: B.Outcome)
    | PolicyDoesNotFit(needed: nat, cap: nat)

  /** What an assembly works with: the policy, the data frame and the task intent, the fence nonce, and
      the token counter. */
  datatype Setting = Setting(policy: string, frame: string, intent: string, nonce: string, count: Counter) {
    function FixedOverhead(): nat {
      count(policy) + count(frame) + count(intent) + HEADER_SLACK
    }

    /** The tokens of the header or the fence around a candidate. */
    function Overhead(c: Candidate): nat {
      if c.trust.RequiresFencing() then
        count("<<valyria-data:" + nonce + " section=\"" + SectionName(c.section) + "\" source=\"" + c.name
              + "\" trust=\"Instruction\">>\n")
        + count("<<valyria-data-end:" + nonce + ">>\n") + WARN_SLACK
      else count("\n## " + c.name + " (Instruction)\n") + 2
    }

    function FullTokens(c: Candidate): nat {
      Rendering(c.content, Full, UNLIMITED, count).tokens
    }
  }

  function SectionName(k: B.Kind): string {
    match k
    case Policy => "policy"
    case Instructions => "instructions"
    case Memory => "memory"
    case Task => "task"
    case Repository => "repository"
    case Evidence => "evidence"
    case History => "history"
  }

  // ---------------------------------------------------------------- partition and order

  predicate LexLe(a: string, b: string) {
    a == [] || (b != [] && (a[0] < b[0] || (a[0] == b[0] && LexLe(a[1..], b[1..]))))
  }

  /** Relevance first, then label. */
  predicate Ahead(a: Candidate, b: Candidate) {
    a.relevance > b.relevance || (a.relevance == b.relevance && LexLe(a.name, b.name))
  }

  function OfSection(cands: seq<Candidate>, k: B.Kind): seq<Candidate> {
    if cands == [] then []
    else OfSection(cands[..|cands| - 1], k)
         + (if cands[|cands| - 1].section == k then [cands[|cands| - 1]] else [])
  }

  function InOrder(cands: seq<Candidate>, k: B.Kind): seq<Candidate> {
    SortBy(Ahead, OfSection(cands, k))
  }

  // ---------------------------------------------------------------- fitting one candidate

  /** The first level, from full fidelity down, whose rendering fits. */
  function FitAtOrBelow(c: Content, level: nat, room: nat, count: Counter): (r: Option<Rendered>)
    requires level <= |LADDER|
    ensures r.Some? ==> r.value.tokens <= room && r.value == Rendering(c, r.value.level, room, count)
    ensures forall l: Level :: level <= l.Rank() && (r.Some? ==> l.Rank() < r.value.level.Rank())
                               ==> Rendering(c, l, room, count).tokens > room
    decreases |LADDER| - level
  {
    if level == |LADDER| then None
    else
      var rendered := Rendering(c, LADDER[level], room, count);
      LevelKept(c, LADDER[level], room, count);
      if rendered.tokens <= room then Some(rendered) else FitAtOrBelow(c, level + 1, room, count)
  }

  lemma {:induction false} LevelKept(c: Content, level: Level, room: nat, count: Counter)
    ensures Rendering(c, level, room, count).level == level
    ensures LADDER[level.Rank()] == level
  {
    hide Lines, MostLines, KeptPieces, SortBy, Flatten;
  }

  function FitOne(c: Content, room: nat, count: Counter): (r: Option<Rendered>)
    ensures r.Some? ==> r.value.tokens <= room && r.value == Rendering(c, r.value.level, room, count)
    ensures r.Some? ==> forall l: Level :: l.Rank() < r.value.level.Rank() ==> Rendering(c, l, room, count).tokens > room
    ensures r.None? ==> forall l: Level :: Rendering(c, l, room, count).tokens > room
  {
    FitAtOrBelow(c, 0, room, count)
  }

  method FitCandidate(c: Content, room: nat, count: Counter) returns (r: Option<Rendered>)
    ensures r == FitOne(c, room, count)
  {
    hide Rendering;
    for i := 0 to |LADDER|
      invariant FitOne(c, room, count) == FitAtOrBelow(c, i, room, count)
    {
      var rendered := Render(c, LADDER[i], room, count);
      if rendered.tokens <= room {
        return Some(rendered);
      }
    }
    r := None;
  }

  // ---------------------------------------------------------------- fitting them all

  /** The state of the fitting loop. */
  datatype Fit = Fit(globalUsed: nat, sectionUsed: nat, items: seq<Item>, dropped: seq<Dropped>,
                     failed: Option<Failure>)

  /** A policy candidate that fits at no level: what it needs, and what its section was given. */
  datatype Failure = Failure(needed: nat, cap: nat)

  function Room(st: Fit, available: nat, cap: nat): nat {
    B.Min(B.Over(available, st.globalUsed), B.Over(cap, st.sectionUsed))
  }

  function Place(st: Fit, c: Candidate, available: nat, cap: nat, with: Setting): Fit {
    if st.failed.Some? then st
    else
      var overhead := with.Overhead(c);
      var hard := Room(st, available, cap);
      match FitOne(c.content, B.Over(hard, overhead), with.count)
      case Some(r) =>
        if r.tokens + overhead <= hard then
          st.(globalUsed := st.globalUsed + r.tokens + overhead, sectionUsed := st.sectionUsed + r.tokens + overhead,
              items := st.items + [Item(c, r, overhead)])
        else Refuse(st, c, cap, with)
      case None => Refuse(st, c, cap, with)
  }

  function Refuse(st: Fit, c: Candidate, cap: nat, with: Setting): Fit {
    if c.trust.Policy? then st.(failed := Some(Failure(with.FullTokens(c), cap)))
    else st.(dropped := st.dropped + [Dropped(c, cap)])
  }

  function PlaceList(st: Fit, list: seq<Candidate>, available: nat, cap: nat, with: Setting): Fit {
    if list == [] then st
    else Place(PlaceList(st, list[..|list| - 1], available, cap, with), list[|list| - 1], available, cap, with)
  }

  function CapOf(caps: map<B.Kind, nat>, k: B.Kind): nat {
    if k in caps then caps[k] else 0
  }

  function PlaceSections(st: Fit, kinds: seq<B.Kind>, cands: seq<Candidate>, available: nat,
                         caps: map<B.Kind, nat>, with: Setting): Fit {
    if kinds == [] then st
    else
      var k := kinds[|kinds| - 1];
      var before := PlaceSections(st, kinds[..|kinds| - 1], cands, available, caps, with);
      if before.failed.Some? then before
      else PlaceList(before.(sectionUsed := 0), InOrder(cands, k), available, CapOf(caps, k), with)
  }

  /** What one section would use at full size, headers and fences included. */
  function Wanted(list: seq<Candidate>, with: Setting): B.Usize {
    if list == [] then 0
    else
      var c := list[|list| - 1];
      B.SaturatingAdd(B.SaturatingAdd(Wanted(list[..|list| - 1], with), with.FullTokens(c)), with.Overhead(c))
  }

  function DemandOf(cands: seq<Candidate>, with: Setting): B.Demand {
    map k | k in B.KINDS && OfSection(cands, k) != [] :: Wanted(InOrder(cands, k), with)
  }

  function AssembledFrom(cands: seq<Candidate>, budget: B.ContextBudget, with: Setting): Outcome {
    match B.Allocation(budget, DemandOf(cands, with))
    case Allocated(available, caps) =>
      var st := PlaceSections(Fit(with.FixedOverhead(), 0, [], [], None), B.KINDS, cands, available, caps, with);
      if st.failed.Some? then PolicyDoesNotFit(st.failed.value.needed, st.failed.value.cap)
      else Assembled(st.items, st.dropped, caps, st.globalUsed)
    case error => AllocationFailed(error)
  }

  // ---------------------------------------------------------------- the loops

  method Partition(cands: seq<Candidate>) returns (bySection: map<B.Kind, seq<Candidate>>)
    ensures forall k :: k in bySection <==> OfSection(cands, k) != []
    ensures forall k :: k in bySection ==> bySection[k] == OfSection(cands, k)
  {
    bySection := map[];
    for i := 0 to |cands|
      invariant forall k :: k in bySection <==> OfSection(cands[..i], k) != []
      invariant forall k :: k in bySection ==> bySection[k] == OfSection(cands[..i], k)
    {
      assert cands[..i + 1][..i] == cands[..i];
      var k := cands[i].section;
      bySection := bySection[k := (if k in bySection then bySection[k] else []) + [cands[i]]];
    }
    assert cands[..|cands|] == cands;
  }

  method WantedOf(list: seq<Candidate>, with: Setting) returns (sum: B.Usize)
    ensures sum == Wanted(list, with)
  {
    hide Rendering;
    sum := 0;
    for i := 0 to |list|
      invariant sum == Wanted(list[..i], with)
    {
      assert list[..i + 1][..i] == list[..i];
      var r := Render(list[i].content, Full, UNLIMITED, with.count);
      sum := B.SaturatingAdd(B.SaturatingAdd(sum, r.tokens), with.Overhead(list[i]));
    }
    assert list[..|list|] == list;
  }

  method MeasureDemand(cands: seq<Candidate>, with: Setting) returns (bySection: map<B.Kind, seq<Candidate>>, demand: B.Demand)
    ensures forall k :: k in bySection <==> OfSection(cands, k) != []
    ensures forall k :: k in bySection ==> bySection[k] == InOrder(cands, k)
    ensures demand == DemandOf(cands, with)
  {
    hide OfSection, SortBy, Wanted;
    var parts := Partition(cands);
    bySection, demand := map[], map[];
    for i := 0 to |B.KINDS|
      invariant forall k :: k in bySection <==> k in B.KINDS[..i] && OfSection(cands, k) != []
      invariant forall k :: k in bySection ==> bySection[k] == InOrder(cands, k)
      invariant demand == map k | k in B.KINDS[..i] && OfSection(cands, k) != [] :: Wanted(InOrder(cands, k), with)
    {
      var k := B.KINDS[i];
      assert B.KINDS[..i + 1] == B.KINDS[..i] + [k];
      if k in parts {
        var list := SortBy(Ahead, parts[k]);
        var sum := WantedOf(list, with);
        bySection := bySection[k := list];
        demand := demand[k := sum];
      }
    }
    assert B.KINDS[..|B.KINDS|] == B.KINDS;
    AllKinds();
  }

  lemma {:induction false} AllKinds()
    ensures forall k: B.Kind :: k in B.KINDS
  {
    forall k: B.Kind
      ensures k in B.KINDS
    {
      assert B.KINDS[k.Rank()] == k;
    }
  }

  method FitSection(st0: Fit, list: seq<Candidate>, available: nat, cap: nat, with: Setting) returns (st: Fit)
    requires st0.failed == None
    ensures st == PlaceList(st0, list, available, cap, with)
  {
    hide Place;
    st := st0;
    var i := 0;
    while i < |list|
      invariant 0 <= i <= |list| && st.failed == None
      invariant st == PlaceList(st0, list[..i], available, cap, with)
    {
      assert list[..i + 1][..i] == list[..i];
      st := FitNext(st, list[i], available, cap, with);
      if st.failed.Some? {
        StaysFailed(st0, list, available, cap, with, i + 1);
        return;
      }
      i := i + 1;
    }
    assert list[..|list|] == list;
  }

  method FitNext(st0: Fit, c: Candidate, available: nat, cap: nat, with: Setting) returns (st: Fit)
    requires st0.failed == None
    ensures st == Place(st0, c, available, cap, with)
  {
    hide FitOne, Rendering, Setting.Overhead;
    st := st0;
    var overhead := with.Overhead(c);
    var hard := Room(st, available, cap);
    var fitted := FitCandidate(c.content, B.Over(hard, overhead), with.count);
    if fitted.Some? && fitted.value.tokens + overhead <= hard {
      st := st.(globalUsed := st.globalUsed + fitted.value.tokens + overhead,
                sectionUsed := st.sectionUsed + fitted.value.tokens + overhead,
                items := st.items + [Item(c, fitted.value, overhead)]);
    } else if c.trust.Policy? {
      var full := Render(c.content, Full, UNLIMITED, with.count);
      st := st.(failed := Some(Failure(full.tokens, cap)));
    } else {
      st := st.(dropped := st.dropped + [Dropped(c, cap)]);
    }
  }

  lemma {:induction false} StaysFailed(st: Fit, list: seq<Candidate>, available: nat, cap: nat, with: Setting, i: nat)
    requires i <= |list| && PlaceList(st, list[..i], available, cap, with).failed.Some?
    ensures PlaceList(st, list, available, cap, with) == PlaceList(st, list[..i], available, cap, with)
    decreases |list| - i
  {
    hide FitOne;
    if i == |list| {
      assert list[..i] == list;
    } else {
      assert list[..i + 1][..i] == list[..i];
      StaysFailed(st, list, available, cap, with, i + 1);
    }
  }

  method AssemblePrompt(cands: seq<Candidate>, budget: B.ContextBudget, with: Setting) returns (r: Outcome)
    ensures r == AssembledFrom(cands, budget, with)
  {
    hide PlaceList, OfSection, SortBy, DemandOf;
    var bySection, demand := MeasureDemand(cands, with);
    var allocation := B.Allocate(budget, demand);
    if !allocation.Allocated? {
      return AllocationFailed(allocation);
    }
    var available, caps := allocation.available, allocation.perSection;
    var st := Fit(with.FixedOverhead(), 0, [], [], None);
    ghost var st0 := st;
    var i := 0;
    while i < |B.KINDS|
      invariant 0 <= i <= |B.KINDS| && st.failed == None
      invariant st == PlaceSections(st0, B.KINDS[..i], cands, available, caps, with)
    {
      assert B.KINDS[..i + 1][..i] == B.KINDS[..i];
      var k := B.KINDS[i];
      if k in bySection {
        st := FitSection(st.(sectionUsed := 0), bySection[k], available, CapOf(caps, k), with);
      } else {
        EmptySection(cands, k);
        st := st.(sectionUsed := 0);
        NothingPlaced(st, available, CapOf(caps, k), with);
      }
      if st.failed.Some? {
        SectionsStayFailed(st0, B.KINDS, cands, available, caps, with, i + 1);
        return PolicyDoesNotFit(st.failed.value.needed, st.failed.value.cap);
      }
      i := i + 1;
    }
    assert B.KINDS[..|B.KINDS|] == B.KINDS;
    r := Assembled(st.items, st.dropped, caps, st.globalUsed);
  }

  lemma {:induction false} EmptySection(cands: seq<Candidate>, k: B.Kind)
    requires OfSection(cands, k) == []
    ensures InOrder(cands, k) == []
  {
  }

  lemma {:induction false} NothingPlaced(st: Fit, available: nat, cap: nat, with: Setting)
    ensures PlaceList(st, [], available, cap, with) == st
  {
  }

  lemma {:induction false} SectionsStayFailed(st: Fit, kinds: seq<B.Kind>, cands: seq<Candidate>, available: nat,
                                              caps: map<B.Kind, nat>, with: Setting, i: nat)
    requires i <= |kinds| && PlaceSections(st, kinds[..i], cands, available, caps, with).failed.Some?
    ensures PlaceSections(st, kinds, cands, available, caps, with) == PlaceSections(st, kinds[..i], cands, available, caps, with)
    decreases |kinds| - i
  {
    if i == |kinds| {
      assert kinds[..i] == kinds;
    } else {
      assert kinds[..i + 1][..i] == kinds[..i];
      SectionsStayFailed(st, kinds, cands, available, caps, with, i + 1);
    }
  }
}
