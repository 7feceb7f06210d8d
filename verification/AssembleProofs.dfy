/** What assembly promises, on every successful assembly and on every prompt that fits. */
module AssembleProofs {
  import opened Options
  import opened Sequences
  import opened Compress
  import opened Assemble
  import B = Budget
  import P = BudgetProofs

  // ---------------------------------------------------------------- costs

  function Cost(items: seq<Item>): nat {
    if items == [] then 0 else Cost(items[..|items| - 1]) + items[|items| - 1].Cost()
  }

  function SectionCost(items: seq<Item>, k: B.Kind): nat {
    if items == [] then 0
    else SectionCost(items[..|items| - 1], k)
         + (if items[|items| - 1].candidate.section == k then items[|items| - 1].Cost() else 0)
  }

  function Placed(items: seq<Item>): seq<Candidate> {
    seq(|items|, i requires 0 <= i < |items| => items[i].candidate)
  }

  function Refused(dropped: seq<Dropped>): seq<Candidate> {
    seq(|dropped|, i requires 0 <= i < |dropped| => dropped[i].candidate)
  }

  /** The room the `i`-th item had when it was fitted: what was left of the whole and of its section. */
  function RoomAt(items: seq<Item>, i: nat, fixed: nat, available: nat, caps: map<B.Kind, nat>): nat
    requires i < |items|
  {
    var k := items[i].candidate.section;
    B.Min(B.Over(available, fixed + Cost(items[..i])), B.Over(CapOf(caps, k), SectionCost(items[..i], k)))
  }

  /** The `i`-th item fits its room, at the first level that does. */
  ghost predicate WellPlaced(items: seq<Item>, i: nat, available: nat, caps: map<B.Kind, nat>, with: Setting)
    requires i < |items|
  {
    var item := items[i];
    var room := RoomAt(items, i, with.FixedOverhead(), available, caps);
    && item.overhead == with.Overhead(item.candidate)
    && item.Cost() <= room
    && item.rendered == Rendering(item.candidate.content, item.rendered.level, room - item.overhead, with.count)
    && forall l: Level :: l.Rank() < item.rendered.level.Rank() ==>
         Rendering(item.candidate.content, l, room - item.overhead, with.count).tokens > room - item.overhead
  }

  // ---------------------------------------------------------------- what the loop keeps

  /** The loop so far has dealt with exactly the candidates of `seen`; `k` is the section it is in. */
  ghost predicate Sound(st: Fit, seen: seq<Candidate>, k: B.Kind, available: nat, caps: map<B.Kind, nat>, with: Setting) {
    && st.globalUsed == with.FixedOverhead() + Cost(st.items)
    && (st.failed == None ==> st.sectionUsed == SectionCost(st.items, k))
    && (st.failed == None ==> multiset(Placed(st.items)) + multiset(Refused(st.dropped)) == multiset(seen))
    && (forall i :: 0 <= i < |st.items| ==> WellPlaced(st.items, i, available, caps, with))
    && (forall i :: 0 <= i < |st.dropped| ==>
          !st.dropped[i].candidate.trust.Policy? && st.dropped[i].cap == CapOf(caps, st.dropped[i].candidate.section))
  }

  lemma {:induction false} OneMoreItem(items: seq<Item>, item: Item, available: nat, caps: map<B.Kind, nat>, with: Setting)
    requires forall i :: 0 <= i < |items| ==> WellPlaced(items, i, available, caps, with)
    requires WellPlaced(items + [item], |items|, available, caps, with)
    ensures forall i :: 0 <= i < |items + [item]| ==> WellPlaced(items + [item], i, available, caps, with)
    ensures Cost(items + [item]) == Cost(items) + item.Cost()
    ensures forall k :: SectionCost(items + [item], k) == SectionCost(items, k) + if item.candidate.section == k then item.Cost() else 0
    ensures Placed(items + [item]) == Placed(items) + [item.candidate]
  {
    hide Rendering, Setting.Overhead;
    var items' := items + [item];
    assert items'[..|items|] == items;
    forall i | 0 <= i < |items'|
      ensures WellPlaced(items', i, available, caps, with)
    {
      if i < |items| {
        assert items'[..i] == items[..i];
        assert WellPlaced(items, i, available, caps, with);
      }
    }
  }

  lemma {:induction false} PlacedWell(st: Fit, c: Candidate, r: Rendered, available: nat, caps: map<B.Kind, nat>, with: Setting)
    requires st.globalUsed == with.FixedOverhead() + Cost(st.items)
    requires st.sectionUsed == SectionCost(st.items, c.section)
    requires var hard := Room(st, available, CapOf(caps, c.section));
      FitOne(c.content, B.Over(hard, with.Overhead(c)), with.count) == Some(r) && r.tokens + with.Overhead(c) <= hard
    ensures WellPlaced(st.items + [Item(c, r, with.Overhead(c))], |st.items|, available, caps, with)
  {
    hide Rendering, Setting.Overhead;
    var items' := st.items + [Item(c, r, with.Overhead(c))];
    assert items'[..|st.items|] == st.items;
  }

  lemma {:induction false} SoundPlace(st: Fit, seen: seq<Candidate>, c: Candidate, available: nat,
                                      caps: map<B.Kind, nat>, with: Setting)
    requires st.failed == None && Sound(st, seen, c.section, available, caps, with)
    ensures Sound(Place(st, c, available, CapOf(caps, c.section), with), seen + [c], c.section, available, caps, with)
  {
    hide Rendering, Setting.Overhead, FitOne, Sound, Setting.FullTokens;
    var cap := CapOf(caps, c.section);
    var hard := Room(st, available, cap);
    var fitted := FitOne(c.content, B.Over(hard, with.Overhead(c)), with.count);
    if fitted.Some? && fitted.value.tokens + with.Overhead(c) <= hard {
      SoundItem(st, seen, c, fitted.value, available, caps, with);
    } else {
      SoundRefusal(st, seen, c, available, caps, with);
    }
  }

  lemma {:induction false} SoundItem(st: Fit, seen: seq<Candidate>, c: Candidate, r: Rendered, available: nat,
                                     caps: map<B.Kind, nat>, with: Setting)
    requires st.failed == None && Sound(st, seen, c.section, available, caps, with)
    requires var hard := Room(st, available, CapOf(caps, c.section));
      FitOne(c.content, B.Over(hard, with.Overhead(c)), with.count) == Some(r) && r.tokens + with.Overhead(c) <= hard
    ensures Sound(st.(globalUsed := st.globalUsed + r.tokens + with.Overhead(c),
                      sectionUsed := st.sectionUsed + r.tokens + with.Overhead(c),
                      items := st.items + [Item(c, r, with.Overhead(c))]),
                  seen + [c], c.section, available, caps, with)
  {
    hide Rendering, Setting.Overhead, FitOne, WellPlaced, Room, Setting.FixedOverhead;
    var item := Item(c, r, with.Overhead(c));
    PlacedWell(st, c, r, available, caps, with);
    OneMoreItem(st.items, item, available, caps, with);
    assert multiset(Placed(st.items + [item])) == multiset(Placed(st.items)) + multiset{c};
  }

  lemma {:induction false} SoundRefusal(st: Fit, seen: seq<Candidate>, c: Candidate, available: nat,
                                        caps: map<B.Kind, nat>, with: Setting)
    requires st.failed == None && Sound(st, seen, c.section, available, caps, with)
    ensures Sound(Refuse(st, c, CapOf(caps, c.section), with), seen + [c], c.section, available, caps, with)
  {
    hide WellPlaced, Setting.FullTokens, Setting.FixedOverhead, Cost, SectionCost;
    if !c.trust.Policy? {
      var drop := Dropped(c, CapOf(caps, c.section));
      assert Refused(st.dropped + [drop]) == Refused(st.dropped) + [c];
    }
  }

  lemma {:induction false} SoundList(st: Fit, seen: seq<Candidate>, list: seq<Candidate>, k: B.Kind, available: nat,
                                     caps: map<B.Kind, nat>, with: Setting)
    requires st.failed == None && Sound(st, seen, k, available, caps, with)
    requires forall i :: 0 <= i < |list| ==> list[i].section == k
    ensures Sound(PlaceList(st, list, available, CapOf(caps, k), with), seen + list, k, available, caps, with)
  {
    hide Place, Sound;
    if list == [] {
      assert seen + list == seen;
    } else {
      var before, c := list[..|list| - 1], list[|list| - 1];
      SoundList(st, seen, before, k, available, caps, with);
      var mid := PlaceList(st, before, available, CapOf(caps, k), with);
      assert seen + list == (seen + before) + [c];
      if mid.failed == None {
        SoundPlace(mid, seen + before, c, available, caps, with);
      } else {
        FailedStays(mid, c, available, CapOf(caps, k), with);
        SoundFailed(mid, seen + before, seen + list, k, k, available, caps, with);
      }
    }
  }

  lemma {:induction false} FailedStays(st: Fit, c: Candidate, available: nat, cap: nat, with: Setting)
    requires st.failed.Some?
    ensures Place(st, c, available, cap, with) == st
  {
  }

  lemma {:induction false} SoundFailed(st: Fit, seen: seq<Candidate>, more: seq<Candidate>, k: B.Kind, k': B.Kind,
                                       available: nat, caps: map<B.Kind, nat>, with: Setting)
    requires st.failed.Some? && Sound(st, seen, k, available, caps, with)
    ensures Sound(st, more, k', available, caps, with)
  {
    hide WellPlaced;
  }

  // ---------------------------------------------------------------- the sections one after the other

  /** The candidates in the order the loop considers them. */
  function Considered(cands: seq<Candidate>, kinds: seq<B.Kind>): seq<Candidate> {
    if kinds == [] then []
    else Considered(cands, kinds[..|kinds| - 1]) + InOrder(cands, kinds[|kinds| - 1])
  }

  lemma {:induction false} InSection(cands: seq<Candidate>, k: B.Kind)
    ensures forall i :: 0 <= i < |InOrder(cands, k)| ==> InOrder(cands, k)[i].section == k
  {
    hide SortBy;
    SortPermutes(Ahead, OfSection(cands, k));
    SameElements(InOrder(cands, k), OfSection(cands, k));
    SectionOnly(cands, k);
    forall i | 0 <= i < |InOrder(cands, k)|
      ensures InOrder(cands, k)[i].section == k
    {
      assert InOrder(cands, k)[i] in OfSection(cands, k);
    }
  }

  lemma {:induction false} SectionOnly(cands: seq<Candidate>, k: B.Kind)
    ensures forall c :: c in OfSection(cands, k) ==> c.section == k
  {
    if cands != [] {
      SectionOnly(cands[..|cands| - 1], k);
    }
  }

  lemma {:induction false} SectionCount(cands: seq<Candidate>, k: B.Kind, c: Candidate)
    ensures multiset(OfSection(cands, k))[c] == if c.section == k then multiset(cands)[c] else 0
  {
    if cands != [] {
      SectionCount(cands[..|cands| - 1], k, c);
      assert cands == cands[..|cands| - 1] + [cands[|cands| - 1]];
    }
  }

  lemma {:induction false} ConsideredCount(cands: seq<Candidate>, kinds: seq<B.Kind>, c: Candidate)
    requires forall i, j :: 0 <= i < j < |kinds| ==> kinds[i] != kinds[j]
    ensures multiset(Considered(cands, kinds))[c] == if c.section in kinds then multiset(cands)[c] else 0
  {
    hide InOrder;
    if kinds != [] {
      var k := kinds[|kinds| - 1];
      ConsideredCount(cands, kinds[..|kinds| - 1], c);
      InOrderCount(cands, k, c);
    }
  }

  lemma {:induction false} InOrderCount(cands: seq<Candidate>, k: B.Kind, c: Candidate)
    ensures multiset(InOrder(cands, k))[c] == if c.section == k then multiset(cands)[c] else 0
  {
    hide SortBy;
    SortPermutes(Ahead, OfSection(cands, k));
    SectionCount(cands, k, c);
  }

  /** The loop considers every candidate once. */
  lemma {:induction false} EveryCandidateConsidered(cands: seq<Candidate>)
    ensures multiset(Considered(cands, B.KINDS)) == multiset(cands)
  {
    hide Considered;
    forall c
      ensures multiset(Considered(cands, B.KINDS))[c] == multiset(cands)[c]
    {
      P.EveryKind(c.section);
      ConsideredCount(cands, B.KINDS, c);
    }
  }

  lemma {:induction false} NoneOf(items: seq<Item>, k: B.Kind)
    requires forall i :: 0 <= i < |items| ==> items[i].candidate.section != k
    ensures SectionCost(items, k) == 0
  {
    if items != [] {
      NoneOf(items[..|items| - 1], k);
    }
  }

  lemma {:induction false} ConsideredSections(cands: seq<Candidate>, kinds: seq<B.Kind>)
    ensures forall c :: c in Considered(cands, kinds) ==> c.section in kinds
  {
    hide InOrder;
    if kinds != [] {
      var k := kinds[|kinds| - 1];
      ConsideredSections(cands, kinds[..|kinds| - 1]);
      InSection(cands, k);
    }
  }

  /** Entering a section none of whose candidates was seen. */
  lemma {:induction false} SoundEntry(st: Fit, seen: seq<Candidate>, k: B.Kind, next: B.Kind, available: nat,
                                      caps: map<B.Kind, nat>, with: Setting)
    requires st.failed == None && Sound(st, seen, k, available, caps, with)
    requires forall c :: c in seen ==> c.section != next
    ensures Sound(st.(sectionUsed := 0), seen, next, available, caps, with)
  {
    hide WellPlaced;
    forall i | 0 <= i < |st.items|
      ensures st.items[i].candidate.section != next
    {
      assert Placed(st.items)[i] in multiset(Placed(st.items));
      assert st.items[i].candidate in multiset(seen);
    }
    NoneOf(st.items, next);
  }

  function LastOf(kinds: seq<B.Kind>): B.Kind {
    if kinds == [] then B.Policy else kinds[|kinds| - 1]
  }

  lemma {:induction false} SoundSections(kinds: seq<B.Kind>, cands: seq<Candidate>, available: nat,
                                         caps: map<B.Kind, nat>, with: Setting)
    requires forall i, j :: 0 <= i < j < |kinds| ==> kinds[i] != kinds[j]
    ensures var st := PlaceSections(Fit(with.FixedOverhead(), 0, [], [], None), kinds, cands, available, caps, with);
      Sound(st, Considered(cands, kinds), LastOf(kinds), available, caps, with)
  {
    hide PlaceList, Sound, InOrder;
    var st0 := Fit(with.FixedOverhead(), 0, [], [], None);
    if kinds == [] {
      SoundStart(available, caps, with);
    } else {
      var before, k := kinds[..|kinds| - 1], kinds[|kinds| - 1];
      SoundSections(before, cands, available, caps, with);
      var mid := PlaceSections(st0, before, cands, available, caps, with);
      if mid.failed == None {
        ConsideredSections(cands, before);
        SoundEntry(mid, Considered(cands, before), LastOf(before), k, available, caps, with);
        InSection(cands, k);
        SoundList(mid.(sectionUsed := 0), Considered(cands, before), InOrder(cands, k), k, available, caps, with);
      } else {
        SoundFailed(mid, Considered(cands, before), Considered(cands, kinds), LastOf(before), k, available, caps, with);
      }
    }
  }

  lemma {:induction false} SoundStart(available: nat, caps: map<B.Kind, nat>, with: Setting)
    ensures Sound(Fit(with.FixedOverhead(), 0, [], [], None), [], B.Policy, available, caps, with)
  {
  }

  lemma {:induction false} CostsStayBelow(items: seq<Item>, n: nat, available: nat, caps: map<B.Kind, nat>, with: Setting)
    requires n <= |items| && forall i :: 0 <= i < |items| ==> WellPlaced(items, i, available, caps, with)
    ensures with.FixedOverhead() + Cost(items[..n]) <= B.Max(available, with.FixedOverhead())
    ensures forall k :: SectionCost(items[..n], k) <= CapOf(caps, k)
  {
    hide Rendering, Setting.FixedOverhead, Setting.Overhead;
    if n > 0 {
      CostsStayBelow(items, n - 1, available, caps, with);
      assert items[..n][..n - 1] == items[..n - 1];
      assert WellPlaced(items, n - 1, available, caps, with);
    }
  }

  /** A successful assembly places or drops every candidate exactly once, and drops no policy; every
      section stays within its cap, and the accounted whole within the available tokens (or the fixed
      overhead, if that alone is more); and every item is placed at the first fidelity level that fits
      the room left to it. */
  lemma {:induction false} AssemblyIsSound(cands: seq<Candidate>, budget: B.ContextBudget, with: Setting)
    requires AssembledFrom(cands, budget, with).Assembled?
    ensures var r := AssembledFrom(cands, budget, with);
      && multiset(Placed(r.items)) + multiset(Refused(r.dropped)) == multiset(cands)
      && (forall i :: 0 <= i < |r.dropped| ==> !r.dropped[i].candidate.trust.Policy?)
      && (forall k :: SectionCost(r.items, k) <= CapOf(r.allocation, k))
      && r.accounted == with.FixedOverhead() + Cost(r.items)
      && r.accounted <= B.Max(budget.Available(), with.FixedOverhead())
      && (forall i :: 0 <= i < |r.items| ==> WellPlaced(r.items, i, budget.Available(), r.allocation, with))
  {
    hide PlaceSections, WellPlaced, DemandOf, Considered, Cost, SectionCost, B.Passes, B.FirstUnbudgeted, B.FloorTotal;
    var r := AssembledFrom(cands, budget, with);
    P.EveryKind(B.Policy);
    SoundSections(B.KINDS, cands, budget.Available(), r.allocation, with);
    EveryCandidateConsidered(cands);
    CostsStayBelow(r.items, |r.items|, budget.Available(), r.allocation, with);
    assert r.items[..|r.items|] == r.items;
  }

  /** So every policy candidate is in the prompt. */
  lemma {:induction false} PolicyAlwaysPlaced(cands: seq<Candidate>, budget: B.ContextBudget, with: Setting, c: Candidate)
    requires AssembledFrom(cands, budget, with).Assembled? && c in cands && c.trust.Policy?
    ensures c in Placed(AssembledFrom(cands, budget, with).items)
  {
    hide AssembledFrom, WellPlaced;
    var r := AssembledFrom(cands, budget, with);
    AssemblyIsSound(cands, budget, with);
    assert c in multiset(cands);
    assert forall x :: x in Refused(r.dropped) ==> !x.trust.Policy?;
    assert c !in multiset(Refused(r.dropped));
    assert c in multiset(Placed(r.items));
  }

  /** Whatever its trust and section, a placed candidate is below full fidelity if and only if its full
      rendering exceeds the room it had. */
  lemma {:induction false} DegradedIff(cands: seq<Candidate>, budget: B.ContextBudget, with: Setting, i: nat)
    requires AssembledFrom(cands, budget, with).Assembled? && i < |AssembledFrom(cands, budget, with).items|
    ensures var r := AssembledFrom(cands, budget, with); var item := r.items[i];
      var room := RoomAt(r.items, i, with.FixedOverhead(), budget.Available(), r.allocation);
      && item.overhead <= room
      && (!item.rendered.level.Full? <==>
            Rendering(item.candidate.content, Full, room - item.overhead, with.count).tokens > room - item.overhead)
  {
    hide AssembledFrom, Rendering, Setting.Overhead, RoomAt, Cost, SectionCost;
    AssemblyIsSound(cands, budget, with);
    var r := AssembledFrom(cands, budget, with);
    assert WellPlaced(r.items, i, budget.Available(), r.allocation, with);
    assert Level.Full.Rank() == 0;
  }

  // ---- the policy section protects nothing but the policy's trust

  const CHARACTERS: Setting := Setting("", "", "", "", (s: string) => |s|)

  /** A candidate of the policy section whose text is one line of two hundred characters. */
  function LongLine(trust: Trust): Candidate {
    Candidate(trust, B.Policy, 0, "p", Text(seq(200, _ => 'x')))
  }

  /** A thousand tokens, of which one section is to have `n`. */
  function OneSection(k: B.Kind, n: B.Usize): B.ContextBudget {
    B.ContextBudget(1000, 0, [B.Section(k, n, n, n, 250)])
  }

  function PolicyOnly(n: B.Usize): B.ContextBudget {
    OneSection(B.Policy, n)
  }

  lemma {:induction false} OneLine(text: string)
    requires text != [] && '\n' !in text
    ensures Lines(text) == [text]
  {
    var n := FirstBreak(text);
    assert n == |text|;
    assert text[..n] == text && text[n..] == [];
  }

  lemma {:induction false} LongLineRendered(level: Level, target: nat)
    requires target < 200
    ensures Rendering(LongLine(Policy).content, level, target, CHARACTERS.count).tokens ==
            if level.Reference? then |TEXT_REFERENCE| else 200 + |MARKER|
    ensures CHARACTERS.FullTokens(LongLine(Policy)) == 200
  {
    hide Lines, MostLines, Flatten;
    var text: string := seq(200, _ => 'x');
    assert |text| == 200;
    OneLine(text);
  }

  /** Alone among the candidates, one that does not fail is dealt with in its own section. */
  lemma {:induction false} AloneFits(c: Candidate, kinds: seq<B.Kind>, available: nat, caps: map<B.Kind, nat>, with: Setting)
    requires forall i, j :: 0 <= i < j < |kinds| ==> kinds[i] != kinds[j]
    requires Place(Fit(with.FixedOverhead(), 0, [], [], None), c, available, CapOf(caps, c.section), with).failed == None
    ensures var st0 := Fit(with.FixedOverhead(), 0, [], [], None);
      var st := PlaceSections(st0, kinds, [c], available, caps, with);
      st.failed == None && (c.section !in kinds ==> st.(sectionUsed := 0) == st0)
  {
    hide Place, Setting.FixedOverhead;
    if kinds != [] {
      var before, k := kinds[..|kinds| - 1], kinds[|kinds| - 1];
      AloneFits(c, before, available, caps, with);
      AloneInOrder(c, k);
      if k == c.section {
        assert c.section !in before;
        var mid := PlaceSections(Fit(with.FixedOverhead(), 0, [], [], None), before, [c], available, caps, with);
        assert [c][..|[c]| - 1] == [];
        assert PlaceList(mid.(sectionUsed := 0), [], available, CapOf(caps, k), with) == mid.(sectionUsed := 0);
        assert PlaceList(mid.(sectionUsed := 0), [c], available, CapOf(caps, k), with) ==
               Place(mid.(sectionUsed := 0), c, available, CapOf(caps, k), with);
      }
    }
  }

  lemma {:induction false} AloneInOrder(c: Candidate, k: B.Kind)
    ensures InOrder([c], k) == if c.section == k then [c] else []
  {
    hide SortBy;
    assert [c][..0] == [];
    assert OfSection([c], k) == if c.section == k then [c] else [];
    SortPermutes(Ahead, OfSection([c], k));
    SameElements(InOrder([c], k), OfSection([c], k));
  }

  lemma {:induction false} LongLineIs(trust: Trust)
    ensures LongLine(trust) == Candidate(trust, B.Policy, 0, "p", LongLine(Policy).content)
    ensures CHARACTERS.FullTokens(LongLine(trust)) == 200
  {
    hide Lines, MostLines, Flatten;
  }

  lemma {:induction false} AloneDemanded(c: Candidate, with: Setting)
    ensures var d := DemandOf([c], with);
      d.Keys == {c.section} && d[c.section] == B.Min(FullCost(c, with), B.USIZE_MAX)
  {
    hide OfSection, InOrder, Setting.FullTokens, Setting.Overhead, Wanted;
    var d := DemandOf([c], with);
    forall k
      ensures k in d <==> k == c.section
    {
      P.EveryKind(k);
      AloneOfSection(c, k);
    }
    AloneInOrder(c, c.section);
    WantedIs([c], with);
    OneCost(c, with);
  }

  /** Its section gets what it is to have, up to what the candidate costs. */
  lemma {:induction false} AloneAllocated(c: Candidate, n: B.Usize, with: Setting)
    requires n <= 1000 && n <= FullCost(c, with)
    ensures var a := B.Allocation(OneSection(c.section, n), DemandOf([c], with));
      a.Allocated? && a.available == 1000 && CapOf(a.perSection, c.section) == n
  {
    hide B.Allocation, P.TrueFloors, DemandOf, FullCost;
    var d, b := DemandOf([c], with), OneSection(c.section, n);
    AloneDemanded(c, with);
    assert B.Want(d, c.section) >= n;
    assert b.sections[0].kind == c.section;
    OneFloor(b.sections[0], d);
    P.SucceedsIff(b, d);
    SameAvailable(b, d);
    P.CapBounds(b, d, b.sections[0]);
  }

  lemma {:induction false} AloneOfSection(c: Candidate, k: B.Kind)
    ensures OfSection([c], k) == if c.section == k then [c] else []
  {
    assert [c][..0] == [];
  }

  lemma {:induction false} OneFloor(s: B.Section, d: B.Demand)
    ensures P.TrueFloors([s], d) == B.Floor(s, d)
  {
    assert [s][..0] == [];
    assert P.TrueFloors([], d) == 0;
  }

  /** A candidate of policy trust, in the policy section, is degraded to a reference line like any other:
      here its section has a hundred tokens, its text takes two hundred. */
  lemma {:induction false} PolicyIsDegraded()
    ensures var r := AssembledFrom([LongLine(Policy)], PolicyOnly(100), CHARACTERS);
      && r.Assembled? && |r.items| == 1 && r.items[0].candidate == LongLine(Policy)
      && r.items[0].rendered.level.Reference?
  {
    hide AssembledFrom, LongLine, PlaceSections, B.Allocation, DemandOf, Setting.FixedOverhead, Rendering, WellPlaced;
    var c, b := LongLine(Policy), PolicyOnly(100);
    PolicyPlaced();
    var r := AssembledFrom([c], b, CHARACTERS);
    AssemblyIsSound([c], b, CHARACTERS);
    RefusedOnly(r.dropped, c);
    assert r.dropped == [];
    assert multiset(Refused(r.dropped)) == multiset{};
    assert |multiset(Placed(r.items))| == |multiset([c])| == 1;
    assert Placed(r.items)[0] in multiset(Placed(r.items));
    assert r.items[0].candidate == c;
    ItemIsReference(r.items[0], r.items, b, r.allocation);
  }

  lemma {:induction false} RefusedOnly(dropped: seq<Dropped>, c: Candidate)
    requires multiset(Refused(dropped)) <= multiset([c])
    ensures forall i :: 0 <= i < |dropped| ==> dropped[i].candidate == c
  {
    forall i | 0 <= i < |dropped|
      ensures dropped[i].candidate == c
    {
      assert Refused(dropped)[i] in multiset(Refused(dropped));
    }
  }

  lemma {:induction false} PolicyPlaced()
    ensures AssembledFrom([LongLine(Policy)], PolicyOnly(100), CHARACTERS).Assembled?
    ensures CapOf(AssembledFrom([LongLine(Policy)], PolicyOnly(100), CHARACTERS).allocation, B.Policy) == 100
    ensures LongLine(Policy).trust.Policy?
  {
    hide PlaceSections, B.Allocation, DemandOf, Rendering, FitOne, LongLine;
    var c := LongLine(Policy);
    LongLineIs(Policy);
    AloneAllocated(c, 100, CHARACTERS);
    var caps := B.Allocation(PolicyOnly(100), DemandOf([c], CHARACTERS)).perSection;
    var st0 := Fit(CHARACTERS.FixedOverhead(), 0, [], [], None);
    LongLineRendered(Reference, 78);
    assert |TEXT_REFERENCE| <= 78;
    assert CHARACTERS.Overhead(c) == 22;
    assert Room(st0, 1000, 100) == 100;
    var fitted := FitOne(c.content, 78, CHARACTERS.count);
    assert fitted.Some?;
    assert Place(st0, c, 1000, 100, CHARACTERS).failed == None;
    P.EveryKind(B.Policy);
    AloneFits(c, B.KINDS, 1000, caps, CHARACTERS);
  }

  lemma {:induction false} ItemIsReference(item: Item, items: seq<Item>, b: B.ContextBudget, caps: map<B.Kind, nat>)
    requires items != [] && items[0] == item && item.candidate == LongLine(Policy)
    requires CapOf(caps, B.Policy) == 100 && WellPlaced(items, 0, b.Available(), caps, CHARACTERS)
    ensures item.rendered.level.Reference?
  {
    hide LongLine, Rendering, Setting.Overhead, Setting.FixedOverhead, B.ContextBudget.Available;
    LongLineIs(Policy);
    var room := RoomAt(items, 0, CHARACTERS.FixedOverhead(), b.Available(), caps);
    assert room <= 100;
    LongLineRendered(item.rendered.level, room - item.overhead);
    assert |MARKER| > 0;
  }

  /** And one of another trust is dropped from the policy section when it does not fit. */
  lemma {:induction false} PolicySectionDrops()
    ensures var r := AssembledFrom([LongLine(Instruction)], PolicyOnly(10), CHARACTERS);
      r.Assembled? && r.items == [] && Refused(r.dropped) == [LongLine(Instruction)]
  {
    hide PlaceSections, B.Allocation, DemandOf, Rendering, FitOne, LongLine, WellPlaced;
    var c, b := LongLine(Instruction), PolicyOnly(10);
    LongLineIs(Instruction);
    AloneAllocated(c, 10, CHARACTERS);
    var caps := B.Allocation(b, DemandOf([c], CHARACTERS)).perSection;
    var st0 := Fit(CHARACTERS.FixedOverhead(), 0, [], [], None);
    assert Place(st0, c, 1000, 10, CHARACTERS).failed == None;
    P.EveryKind(B.Policy);
    AloneFits(c, B.KINDS, 1000, caps, CHARACTERS);
    var r := AssembledFrom([c], b, CHARACTERS);
    AssemblyIsSound([c], b, CHARACTERS);
    if r.items != [] {
      assert Placed(r.items)[0] in multiset(Placed(r.items));
      assert Placed(r.items)[0] in multiset([c]);
      assert CHARACTERS.Overhead(c) == 22;
      OverheadFits(r.items, b.Available(), caps);
    }
    assert Placed(r.items) == [];
    assert multiset(Refused(r.dropped)) == multiset([c]);
    AloneRefused(Refused(r.dropped), c);
  }

  lemma {:induction false} AloneRefused(refused: seq<Candidate>, c: Candidate)
    requires multiset(refused) == multiset([c])
    ensures refused == [c]
  {
    assert |multiset(refused)| == |multiset([c])| == 1;
    assert refused[0] in multiset(refused);
  }

  lemma {:induction false} OverheadFits(items: seq<Item>, available: nat, caps: map<B.Kind, nat>)
    requires items != [] && WellPlaced(items, 0, available, caps, CHARACTERS)
    ensures CHARACTERS.Overhead(items[0].candidate) <= CapOf(caps, items[0].candidate.section)
  {
    hide Rendering, Setting.Overhead;
  }

  // ---------------------------------------------------------------- a prompt that fits is not degraded

  /** The rendering by which the demand for a candidate is measured. */
  function WholeRendering(c: Candidate, with: Setting): Rendered {
    Rendering(c.content, Full, UNLIMITED, with.count)
  }

  /** With room for that rendering and `extra` tokens, that is how the candidate is rendered in full. */
  ghost predicate RendersWhole(c: Candidate, extra: nat, with: Setting) {
    Rendering(c.content, Full, with.FullTokens(c) + extra, with.count) == WholeRendering(c, with)
  }

  /** The symbols of a source as they are rendered in full. */
  function PiecesOf(c: Candidate): seq<string>
    requires c.content.Source?
  {
    Pieces(SortBy(MoreRelevant, c.content.symbols), Full)
  }

  /** What the source costs counted piece by piece, up to the `k`-th symbol. */
  function PieceByPiece(c: Candidate, k: nat, with: Setting): nat
    requires c.content.Source? && k <= |PiecesOf(c)|
  {
    Used(with.count(HeaderLine(c.content.path, c.content.header)), PiecesOf(c), k, with.count)
  }

  /** Every text is; a source is if and only if it has at most one symbol, or counting it piece by piece
      comes to no more than that room, and to less before the last symbol. */
  lemma {:induction false} RendersWholeIff(c: Candidate, extra: nat, with: Setting)
    requires if c.content.Text? then with.count(c.content.text) <= UNLIMITED
             else PieceByPiece(c, |PiecesOf(c)|, with) < UNLIMITED
    ensures RendersWhole(c, extra, with) <==>
      c.content.Text? || |PiecesOf(c)| <= 1
      || (&& PieceByPiece(c, |PiecesOf(c)|, with) <= with.FullTokens(c) + extra
          && PieceByPiece(c, |PiecesOf(c)| - 1, with) < with.FullTokens(c) + extra)
  {
    hide Lines, MostLines, Flatten, SourceRendering, Used, Pieces;
    if c.content.Source? {
      var n := |PiecesOf(c)|;
      if n > 1 {
        UsedGrows(with.count(HeaderLine(c.content.path, c.content.header)), PiecesOf(c), n - 1, n, with.count);
      }
      WholeIff(c, UNLIMITED, with);
      WholeIff(c, with.FullTokens(c) + extra, with);
    }
  }

  /** The rendering of a source with every symbol kept. */
  function WholeSource(c: Candidate, with: Setting): Rendered
    requires c.content.Source?
  {
    var text := HeaderLine(c.content.path, c.content.header) + Flatten(PiecesOf(c)) + OmittedNote(0);
    Rendered(text, with.count(text), Full, 0, false)
  }

  lemma {:induction false} WholeIff(c: Candidate, target: nat, with: Setting)
    requires c.content.Source?
    ensures Rendering(c.content, Full, target, with.count) == WholeSource(c, with) <==>
      |PiecesOf(c)| <= 1
      || (&& PieceByPiece(c, |PiecesOf(c)|, with) <= target && PieceByPiece(c, |PiecesOf(c)| - 1, with) < target)
  {
    hide SortBy, Flatten, KeptPieces, HeaderLine, Piece, Pieces, OmittedNote, Used;
    var pieces := PiecesOf(c);
    KeepsAllIff(with.count(HeaderLine(c.content.path, c.content.header)), pieces, target, with.count);
    assert pieces[..|pieces|] == pieces;
  }

  function FullCost(c: Candidate, with: Setting): nat {
    with.FullTokens(c) + with.Overhead(c)
  }

  function FullCosts(list: seq<Candidate>, with: Setting): nat {
    if list == [] then 0 else FullCosts(list[..|list| - 1], with) + FullCost(list[|list| - 1], with)
  }

  /** Everything so far is placed, and whole. */
  ghost predicate Whole(st: Fit, with: Setting) {
    && st.failed == None && st.dropped == []
    && forall i :: 0 <= i < |st.items| ==> st.items[i].rendered == WholeRendering(st.items[i].candidate, with)
  }

  ghost predicate Uses(st: Fit, st': Fit, cost: nat) {
    st'.globalUsed == st.globalUsed + cost && st'.sectionUsed == st.sectionUsed + cost
  }

  /** In a section with just enough room for this candidate and `extra` tokens more. */
  lemma {:induction false} PlacesWhole(st: Fit, c: Candidate, available: nat, cap: nat, extra: nat, with: Setting)
    requires Whole(st, with) && st.sectionUsed + FullCost(c, with) + extra == cap
    requires st.globalUsed + FullCost(c, with) + extra <= available
    ensures var st' := Place(st, c, available, cap, with);
      (Whole(st', with) <==> RendersWhole(c, extra, with)) && (Whole(st', with) ==> Uses(st, st', FullCost(c, with)))
  {
    hide Rendering, Setting.Overhead, FitOne;
    var st' := Place(st, c, available, cap, with);
    var room := with.FullTokens(c) + extra;
    var fitted := FitOne(c.content, room, with.count);
    assert Room(st, available, cap) == room + with.Overhead(c);
    assert Level.Full.Rank() == 0;
    LevelKept(c.content, Full, UNLIMITED, with.count);
    LevelKept(c.content, Full, room, with.count);
    if RendersWhole(c, extra, with) {
      assert Rendering(c.content, Full, room, with.count).tokens == with.FullTokens(c) <= room;
      assert fitted.Some? && fitted.value.level.Rank() == 0;
    }
    if Whole(st', with) {
      assert st'.items[|st'.items| - 1] == Item(c, fitted.value, with.Overhead(c));
    }
  }

  lemma {:induction false} WholeBefore(st: Fit, list: seq<Candidate>, available: nat, cap: nat, with: Setting)
    ensures Whole(PlaceList(st, list, available, cap, with), with) ==> Whole(st, with)
  {
    hide FitOne, Rendering, Setting.Overhead;
    if list != [] {
      WholeBefore(st, list[..|list| - 1], available, cap, with);
      NextWhole(PlaceList(st, list[..|list| - 1], available, cap, with), list[|list| - 1], available, cap, with);
    }
  }

  lemma {:induction false} NextWhole(st: Fit, c: Candidate, available: nat, cap: nat, with: Setting)
    ensures Whole(Place(st, c, available, cap, with), with) ==> Whole(st, with)
  {
    hide FitOne, Rendering, Setting.Overhead, Room;
    var st' := Place(st, c, available, cap, with);
    if Whole(st', with) {
      forall i | 0 <= i < |st.items|
        ensures st.items[i].rendered == WholeRendering(st.items[i].candidate, with)
      {
        assert st'.items[i] == st.items[i];
      }
    }
  }

  /** Every candidate of the list renders whole in what it and those after it cost. */
  ghost predicate ListRendersWhole(list: seq<Candidate>, extra: nat, with: Setting) {
    forall i :: 0 <= i < |list| ==> RendersWhole(list[i], FullCosts(list[i + 1..], with) + extra, with)
  }

  lemma {:induction false} WithoutLast(list: seq<Candidate>, extra: nat, with: Setting)
    requires list != []
    ensures var before, c := list[..|list| - 1], list[|list| - 1];
      ListRendersWhole(list, extra, with) <==>
        ListRendersWhole(before, FullCost(c, with) + extra, with) && RendersWhole(c, extra, with)
  {
    hide RendersWhole, FullCost;
    var before, c := list[..|list| - 1], list[|list| - 1];
    forall i | 0 <= i < |before|
      ensures before[i] == list[i]
      ensures FullCosts(before[i + 1..], with) + FullCost(c, with) == FullCosts(list[i + 1..], with)
    {
      assert list[i + 1..][..|list[i + 1..]| - 1] == before[i + 1..];
    }
    assert list[|list|..] == [];
    NoCosts(with);
  }

  lemma {:induction false} ListWhole(st: Fit, list: seq<Candidate>, available: nat, cap: nat, extra: nat, with: Setting)
    requires Whole(st, with) && st.sectionUsed + FullCosts(list, with) + extra == cap
    requires st.globalUsed + FullCosts(list, with) + extra <= available
    ensures var st' := PlaceList(st, list, available, cap, with);
      (Whole(st', with) <==> ListRendersWhole(list, extra, with)) && (Whole(st', with) ==> Uses(st, st', FullCosts(list, with)))
  {
    hide Place, RendersWhole, FullCost, Whole, ListRendersWhole;
    if list == [] {
      NoneWhole(extra, with);
    } else {
      var before, c := list[..|list| - 1], list[|list| - 1];
      ListWhole(st, before, available, cap, FullCost(c, with) + extra, with);
      WithoutLast(list, extra, with);
      var mid := PlaceList(st, before, available, cap, with);
      NextWhole(mid, c, available, cap, with);
      if Whole(mid, with) {
        PlacesWhole(mid, c, available, cap, extra, with);
      }
    }
  }

  lemma {:induction false} NoneWhole(extra: nat, with: Setting)
    ensures ListRendersWhole([], extra, with)
  {
  }

  lemma {:induction false} OneCost(c: Candidate, with: Setting)
    ensures FullCosts([c], with) == FullCost(c, with)
  {
    assert [c][..0] == [];
    assert FullCosts([], with) == 0;
  }

  lemma {:induction false} CostsConcat(a: seq<Candidate>, b: seq<Candidate>, with: Setting)
    ensures FullCosts(a + b, with) == FullCosts(a, with) + FullCosts(b, with)
  {
    hide FullCost;
    if b == [] {
      assert a + b == a;
    } else {
      assert (a + b)[..|a + b| - 1] == a + b[..|b| - 1];
      CostsConcat(a, b[..|b| - 1], with);
    }
  }

  lemma {:induction false} CostsPermute(a: seq<Candidate>, b: seq<Candidate>, with: Setting)
    requires multiset(a) == multiset(b)
    ensures FullCosts(a, with) == FullCosts(b, with)
  {
    hide FullCost;
    SameElements(a, b);
    if a != [] {
      var before, c := a[..|a| - 1], a[|a| - 1];
      assert a == before + [c];
      assert c in b;
      var i :| 0 <= i < |b| && b[i] == c;
      WithoutOne(b, i, with);
      CostsPermute(before, b[..i] + b[i + 1..], with);
    }
  }

  lemma {:induction false} WithoutOne(b: seq<Candidate>, i: nat, with: Setting)
    requires i < |b|
    ensures FullCosts(b, with) == FullCosts(b[..i] + b[i + 1..], with) + FullCost(b[i], with)
    ensures multiset(b[..i] + b[i + 1..]) == multiset(b) - multiset{b[i]}
  {
    hide FullCost, FullCosts;
    assert b == b[..i] + ([b[i]] + b[i + 1..]);
    CostsConcat(b[..i], b[i + 1..], with);
    CostsConcat(b[..i], [b[i]] + b[i + 1..], with);
    CostsConcat([b[i]], b[i + 1..], with);
    OneCost(b[i], with);
  }

  lemma {:induction false} SectionsWhole(kinds: seq<B.Kind>, cands: seq<Candidate>, available: nat,
                                         caps: map<B.Kind, nat>, with: Setting)
    requires forall k :: k in kinds ==> CapOf(caps, k) == FullCosts(InOrder(cands, k), with)
    requires with.FixedOverhead() + FullCosts(Considered(cands, kinds), with) <= available
    ensures var st := PlaceSections(Fit(with.FixedOverhead(), 0, [], [], None), kinds, cands, available, caps, with);
      && (Whole(st, with) <==> forall k :: k in kinds ==> ListRendersWhole(InOrder(cands, k), 0, with))
      && (Whole(st, with) ==> st.globalUsed == with.FixedOverhead() + FullCosts(Considered(cands, kinds), with))
  {
    hide PlaceList, ListRendersWhole, Setting.FixedOverhead, InOrder, FullCosts, WholeRendering;
    if kinds == [] {
      NoCosts(with);
    } else {
      var before, k := kinds[..|kinds| - 1], kinds[|kinds| - 1];
      CostsConcat(Considered(cands, before), InOrder(cands, k), with);
      SectionsWhole(before, cands, available, caps, with);
      var mid := PlaceSections(Fit(with.FixedOverhead(), 0, [], [], None), before, cands, available, caps, with);
      assert forall k' :: k' in kinds <==> k' in before || k' == k;
      if mid.failed == None {
        WholeBefore(mid.(sectionUsed := 0), InOrder(cands, k), available, CapOf(caps, k), with);
        if Whole(mid, with) {
          ListWhole(mid.(sectionUsed := 0), InOrder(cands, k), available, CapOf(caps, k), 0, with);
        }
      }
    }
  }

  // ---- the allocation of a demand that fits

  lemma {:induction false} WantedIs(list: seq<Candidate>, with: Setting)
    ensures Wanted(list, with) == B.Min(FullCosts(list, with), B.USIZE_MAX)
  {
    hide Setting.FullTokens, Setting.Overhead;
    if list != [] {
      WantedIs(list[..|list| - 1], with);
    }
  }

  lemma {:induction false} SumBelow(a: map<B.Kind, nat>, b: map<B.Kind, nat>, kinds: seq<B.Kind>)
    requires forall k :: k in a ==> a[k] <= CapOf(b, k)
    ensures P.SumOver(a, kinds) <= P.SumOver(b, kinds)
  {
    if kinds != [] {
      SumBelow(a, b, kinds[..|kinds| - 1]);
    }
  }

  lemma {:induction false} DemandSum(cands: seq<Candidate>, kinds: seq<B.Kind>, with: Setting)
    ensures P.SumOver(DemandOf(cands, with), kinds) <= FullCosts(Considered(cands, kinds), with)
  {
    hide Wanted, InOrder, FullCosts, OfSection;
    if kinds != [] {
      var before, k := kinds[..|kinds| - 1], kinds[|kinds| - 1];
      DemandSum(cands, before, with);
      CostsConcat(Considered(cands, before), InOrder(cands, k), with);
      WantedIs(InOrder(cands, k), with);
    }
  }

  /** No cap exceeds what its section wants. */
  lemma {:induction false} CapAtMostWant(b: B.ContextBudget, d: B.Demand, s: B.Section)
    requires B.Allocation(b, d).Allocated? && P.OneEach(b.sections) && s in b.sections
    ensures P.Cap(b, d, s) <= B.Want(d, s.kind)
  {
    hide B.ByPriority, B.Allocation, B.FloorTotal, P.Asks, P.Cap;
    var i, _ := P.Places(b, s, s);
    P.ClosedForm(b, d, i);
  }

  lemma {:induction false} TotalIsSum(caps: map<B.Kind, nat>)
    ensures P.Total(caps) == P.SumOver(caps, B.KINDS)
  {
  }

  lemma {:induction false} CapsAtMostDemand(b: B.ContextBudget, d: B.Demand)
    requires B.Allocation(b, d).Allocated? && P.OneEach(b.sections)
    ensures var caps := B.Allocation(b, d).perSection; forall k :: k in caps ==> caps[k] <= CapOf(d, k)
  {
    hide B.FirstUnbudgeted, B.FloorTotal, P.OneEach, P.SumOver;
    var caps := B.Allocation(b, d).perSection;
    forall k | k in caps
      ensures caps[k] <= CapOf(d, k)
    {
      KeysAreKinds(b, d, k);
      var i :| 0 <= i < |b.sections| && b.sections[i].kind == k;
      CapAtMostWant(b, d, b.sections[i]);
    }
  }

  lemma {:induction false} KeysAreKinds(b: B.ContextBudget, d: B.Demand, k: B.Kind)
    requires B.Allocation(b, d).Allocated?
    ensures k in B.Allocation(b, d).perSection <==> b.Budgets(k)
  {
    hide B.ByPriority, B.TopUp, B.FirstUnbudgeted, B.FloorTotal;
    B.OrderCovered(b.sections, d);
    assert B.Passes(b, d).alloc.Keys == B.Floors(b.sections, d).Keys;
    assert k in B.Passes(b, d).alloc <==> k in B.Passes(b, d).alloc.Keys;
    assert k in B.Floors(b.sections, d) <==> k in B.Floors(b.sections, d).Keys;
  }

  lemma {:induction false} FloorsBelowDemand(b: B.ContextBudget, d: B.Demand)
    requires P.OneEach(b.sections)
    ensures P.TrueFloors(b.sections, d) <= P.SumOver(d, B.KINDS)
  {
    hide P.SumOver, P.OneEach;
    P.TotalOfFloors(b.sections, d);
    var floors := B.Floors(b.sections, d);
    forall k | k in floors
      ensures floors[k] <= CapOf(d, k)
    {
      var i :| 0 <= i < |b.sections| && b.sections[i].kind == k;
      P.FloorsHold(b.sections, d, i);
    }
    SumBelow(floors, d, B.KINDS);
  }

  lemma {:induction false} SameAvailable(b: B.ContextBudget, d: B.Demand)
    requires B.Allocation(b, d).Allocated?
    ensures B.Allocation(b, d).available == b.Available()
  {
    hide B.Passes, B.FirstUnbudgeted, B.FloorTotal;
  }

  /** Where every term is at most its counterpart and the sums are equal, so are the terms. */
  lemma {:induction false} SumTight(a: map<B.Kind, nat>, b: map<B.Kind, nat>, kinds: seq<B.Kind>, k: B.Kind)
    requires forall k :: k in a ==> a[k] <= CapOf(b, k)
    requires P.SumOver(a, kinds) >= P.SumOver(b, kinds) && k in kinds
    ensures CapOf(a, k) >= CapOf(b, k)
  {
    var before, last := kinds[..|kinds| - 1], kinds[|kinds| - 1];
    SumBelow(a, b, before);
    if k != last {
      SumTight(a, b, before, k);
    }
  }

  /** A demand that fits the available tokens is met in full, in every section it may fill. */
  lemma {:induction false} DemandMet(b: B.ContextBudget, d: B.Demand)
    requires P.OneEach(b.sections) && (forall k :: k in d ==> b.Budgets(k))
    requires forall s :: s in b.sections ==> B.Want(d, s.kind) <= s.max
    requires P.SumOver(d, B.KINDS) <= b.Available()
    ensures B.Allocation(b, d).Allocated?
    ensures forall k :: CapOf(B.Allocation(b, d).perSection, k) >= B.Want(d, k)
  {
    hide B.Allocation, P.TrueFloors, P.SumOver, P.OneEach, P.Total;
    FloorsBelowDemand(b, d);
    P.SucceedsIff(b, d);
    P.NothingWasted(b, d);
    var caps := B.Allocation(b, d).perSection;
    forall k
      ensures CapOf(caps, k) >= B.Want(d, k)
    {
      if P.Total(caps) == b.Available() {
        CapsAtMostDemand(b, d);
        P.EveryKind(k);
        TotalIsSum(caps);
        SumTight(caps, d, B.KINDS, k);
      } else if k in d {
        KeysAreKinds(b, d, k);
        var i :| 0 <= i < |b.sections| && b.sections[i].kind == k;
        assert b.sections[i] in b.sections;
      }
    }
  }

  lemma {:induction false} PartOfConsidered(cands: seq<Candidate>, kinds: seq<B.Kind>, k: B.Kind, with: Setting)
    requires k in kinds
    ensures FullCosts(InOrder(cands, k), with) <= FullCosts(Considered(cands, kinds), with)
  {
    hide FullCosts, InOrder;
    var before, last := kinds[..|kinds| - 1], kinds[|kinds| - 1];
    CostsConcat(Considered(cands, before), InOrder(cands, last), with);
    if k != last {
      PartOfConsidered(cands, before, k, with);
    }
  }

  /** What a section demands is what its candidates cost in full. */
  lemma {:induction false} DemandOfSection(cands: seq<Candidate>, budget: B.ContextBudget, k: B.Kind, with: Setting)
    requires forall c :: c in cands ==> budget.Budgets(c.section)
    requires FullCosts(cands, with) <= B.USIZE_MAX
    ensures k in DemandOf(cands, with) ==> budget.Budgets(k)
    ensures B.Want(DemandOf(cands, with), k) == FullCosts(InOrder(cands, k), with)
  {
    hide Wanted, FullCosts, OfSection, SortBy, B.ContextBudget.Budgets, Considered;
    P.EveryKind(k);
    EveryCandidateConsidered(cands);
    CostsPermute(Considered(cands, B.KINDS), cands, with);
    PartOfConsidered(cands, B.KINDS, k, with);
    WantedIs(InOrder(cands, k), with);
    if OfSection(cands, k) == [] {
      EmptySection(cands, k);
      NoCosts(with);
    } else {
      SectionOnly(cands, k);
      FromCandidates(cands, k);
      assert OfSection(cands, k)[0] in OfSection(cands, k);
    }
  }

  lemma {:induction false} NoCosts(with: Setting)
    ensures FullCosts([], with) == 0
  {
  }

  lemma {:induction false} FromCandidates(cands: seq<Candidate>, k: B.Kind)
    ensures forall c :: c in OfSection(cands, k) ==> c in cands
  {
    if cands != [] {
      FromCandidates(cands[..|cands| - 1], k);
    }
  }

  /** A prompt that fits: the fixed overhead and the full renderings of all candidates fit the available
      tokens, and no section's candidates exceed its maximum. Every candidate is then placed as it was
      measured, and nothing is dropped, if and only if each renders whole in what it and the candidates
      after it in its section cost - for no section is given more than it demands. */
  lemma {:induction false} WholePromptFits(cands: seq<Candidate>, budget: B.ContextBudget, with: Setting)
    requires P.OneEach(budget.sections) && forall c :: c in cands ==> budget.Budgets(c.section)
    requires forall s :: s in budget.sections ==> FullCosts(InOrder(cands, s.kind), with) <= s.max
    requires with.FixedOverhead() + FullCosts(cands, with) <= budget.Available()
    ensures var r := AssembledFrom(cands, budget, with);
      && !r.AllocationFailed?
      && (PlacedWhole(r, with) <==> forall k :: ListRendersWhole(InOrder(cands, k), 0, with))
      && (PlacedWhole(r, with) ==> && multiset(Placed(r.items)) == multiset(cands)
                                   && r.accounted == with.FixedOverhead() + FullCosts(cands, with))
  {
    hide B.Allocation, FullCosts, ListRendersWhole, OfSection, InOrder, PlaceSections, Considered, P.OneEach, P.SumOver, WellPlaced;
    var d := DemandOf(cands, with);
    EveryCandidateConsidered(cands);
    CostsPermute(Considered(cands, B.KINDS), cands, with);
    DemandSum(cands, B.KINDS, with);
    forall k
      ensures (k in d ==> budget.Budgets(k)) && B.Want(d, k) == FullCosts(InOrder(cands, k), with) && k in B.KINDS
    {
      DemandOfSection(cands, budget, k, with);
      P.EveryKind(k);
    }
    DemandMet(budget, d);
    CapsAtMostDemand(budget, d);
    SameAvailable(budget, d);
    SectionsWhole(B.KINDS, cands, budget.Available(), B.Allocation(budget, d).perSection, with);
    if AssembledFrom(cands, budget, with).Assembled? {
      AssemblyIsSound(cands, budget, with);
    }
  }

  /** Every candidate is placed as its demand was measured. */
  ghost predicate PlacedWhole(r: Outcome, with: Setting) {
    && r.Assembled? && r.dropped == []
    && forall i :: 0 <= i < |r.items| ==> r.items[i].rendered == WholeRendering(r.items[i].candidate, with)
  }

  // ---- a source that fits whole and is dropped all the same

  /** The repository's counter: a token for every four characters begun. */
  const QUARTERS: Setting := Setting("", "", "", "", PerCharacters(4))

  const SHORT_SOURCE: Candidate := Candidate(Instruction, B.Repository, 0, "p", Source("p", None, SHORT))

  lemma {:induction false} ShortSourceCosts()
    ensures QUARTERS.FullTokens(SHORT_SOURCE) == 3 && QUARTERS.Overhead(SHORT_SOURCE) == 7
  {
    hide SourceRendering;
    ShortInFull(UNLIMITED);
    assert "\n## " + "p" + " (Instruction)\n" == "\n## p (Instruction)\n";
    assert |"\n## p (Instruction)\n"| == 20;
  }

  lemma {:induction false} ShortSourceNeverFits(level: Level, target: nat)
    requires target <= 3
    ensures Rendering(SHORT_SOURCE.content, level, target, QUARTERS.count).tokens > target
  {
    hide SourceRendering, FullSource;
    if level.Reference? {
      ShortReference(target);
    } else {
      ShortIsCut(level, target);
    }
  }

  lemma {:induction false} NeverPlaced(items: seq<Item>, available: nat, caps: map<B.Kind, nat>)
    requires items != [] && items[0].candidate == SHORT_SOURCE && CapOf(caps, B.Repository) == 10
    ensures !WellPlaced(items, 0, available, caps, QUARTERS)
  {
    hide Rendering, Setting.Overhead;
    ShortSourceCosts();
    var item := items[0];
    var room := RoomAt(items, 0, QUARTERS.FixedOverhead(), available, caps);
    assert room <= 10;
    if WellPlaced(items, 0, available, caps, QUARTERS) {
      ShortSourceNeverFits(item.rendered.level, room - item.overhead);
    }
  }

  /** The condition fails, with the repository's counter, for a source whose full cost is just what its
      section may have and far less than is available: it is dropped. Counted piece by piece it does not
      fit, and with the note about the omitted symbol every level is larger than the room. */
  lemma {:induction false} FittingSourceDropped()
    ensures var c, b := SHORT_SOURCE, OneSection(B.Repository, 10);
      && FullCosts(InOrder([c], B.Repository), QUARTERS) == FullCost(c, QUARTERS) == 10 == b.sections[0].max
      && QUARTERS.FixedOverhead() + FullCosts([c], QUARTERS) <= b.Available()
      && !RendersWhole(c, 0, QUARTERS)
    ensures var r := AssembledFrom([SHORT_SOURCE], OneSection(B.Repository, 10), QUARTERS);
      r.Assembled? && r.items == [] && Refused(r.dropped) == [SHORT_SOURCE]
  {
    hide PlaceSections, B.Allocation, DemandOf, Rendering, FitOne, WellPlaced, Setting.Overhead, Setting.FullTokens, OfSection;
    var c, b := SHORT_SOURCE, OneSection(B.Repository, 10);
    ShortSourceCosts();
    OneCost(c, QUARTERS);
    AloneInOrder(c, B.Repository);
    NotWhole();
    AloneAllocated(c, 10, QUARTERS);
    var caps := B.Allocation(b, DemandOf([c], QUARTERS)).perSection;
    var st0 := Fit(QUARTERS.FixedOverhead(), 0, [], [], None);
    assert Place(st0, c, 1000, 10, QUARTERS).failed == None;
    P.EveryKind(B.Repository);
    AloneFits(c, B.KINDS, 1000, caps, QUARTERS);
    var r := AssembledFrom([c], b, QUARTERS);
    AssemblyIsSound([c], b, QUARTERS);
    if r.items != [] {
      assert Placed(r.items)[0] in multiset(Placed(r.items));
      assert Placed(r.items)[0] in multiset([c]);
      NeverPlaced(r.items, b.Available(), caps);
    }
    assert Placed(r.items) == [];
    assert multiset(Refused(r.dropped)) == multiset([c]);
    AloneRefused(Refused(r.dropped), c);
  }

  lemma {:induction false} NotWhole()
    ensures !RendersWhole(SHORT_SOURCE, 0, QUARTERS)
  {
    hide SourceRendering, Setting.FullTokens;
    ShortSourceCosts();
    ShortInFull(UNLIMITED);
    ShortIsCut(Full, 3);
    assert 3 >= QUARTERS.FullTokens(SHORT_SOURCE);
    assert Rendering(SHORT_SOURCE.content, Full, 3, QUARTERS.count) != WholeRendering(SHORT_SOURCE, QUARTERS);
  }
}
