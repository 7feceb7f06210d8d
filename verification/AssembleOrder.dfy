/** Which candidates an assembly serves first, told from relevance and name alone, and why the others were
    dropped or degraded. */
module AssembleOrder {
  import opened Options
  import opened Sequences
  import opened Compress
  import opened Assemble
  import opened AssembleProofs
  import B = Budget

  // ---------------------------------------------------------------- the order of names

  /** `a` comes no later than `b`: it is where `b` begins, or smaller at the first place they differ. */
  ghost predicate NoLater(a: string, b: string) {
    a <= b || exists n :: 0 <= n < |a| && n < |b| && a[..n] == b[..n] && a[n] < b[n]
  }

  lemma {:induction false} LexIsNoLater(a: string, b: string)
    ensures LexLe(a, b) <==> NoLater(a, b)
  {
    if a != [] && b != [] && a[0] == b[0] {
      LexIsNoLater(a[1..], b[1..]);
      if NoLater(a[1..], b[1..]) && !(a[1..] <= b[1..]) {
        var n :| 0 <= n < |a[1..]| && n < |b[1..]| && a[1..][..n] == b[1..][..n] && a[1..][n] < b[1..][n];
        assert a[..n + 1] == [a[0]] + a[1..][..n] && b[..n + 1] == [b[0]] + b[1..][..n];
        assert a[n + 1] < b[n + 1];
      }
      if NoLater(a, b) && !(a <= b) {
        var n :| 0 <= n < |a| && n < |b| && a[..n] == b[..n] && a[n] < b[n];
        assert a[1..][..n - 1] == a[..n][1..] && b[1..][..n - 1] == b[..n][1..];
        assert a[1..][n - 1] < b[1..][n - 1];
      }
    } else if a != [] && b != [] {
      assert a[..0] == b[..0];
      if NoLater(a, b) && !(a <= b) {
        var n :| 0 <= n < |a| && n < |b| && a[..n] == b[..n] && a[n] < b[n];
        if n > 0 {
          SamePrefix(a, b, n);
        }
      }
    }
  }

  lemma {:induction false} SamePrefix(a: string, b: string, n: nat)
    requires 0 < n <= |a| && n <= |b| && a[..n] == b[..n]
    ensures a[0] == b[0]
  {
    assert a[0] == a[..n][0] == b[..n][0];
  }

  lemma {:induction false} LexTotal(a: string, b: string)
    ensures LexLe(a, b) || LexLe(b, a)
  {
    if a != [] && b != [] {
      LexTotal(a[1..], b[1..]);
    }
  }

  lemma {:induction false} LexTransitive(a: string, b: string, c: string)
    requires LexLe(a, b) && LexLe(b, c)
    ensures LexLe(a, c)
  {
    if a != [] && b != [] && c != [] && a[0] == b[0] == c[0] {
      LexTransitive(a[1..], b[1..], c[1..]);
    }
  }

  lemma {:induction false} AheadIsPreorder()
    ensures TotalPreorder(Ahead)
  {
    hide LexLe;
    forall a, b
      ensures Ahead(a, b) || Ahead(b, a)
    {
      LexTotal(a.name, b.name);
    }
    forall a, b, c | Ahead(a, b) && Ahead(b, c)
      ensures Ahead(a, c)
    {
      if a.relevance == b.relevance == c.relevance {
        LexTransitive(a.name, b.name, c.name);
      }
    }
  }

  // ---------------------------------------------------------------- the order of the candidates

  /** `a` is served no later than `b`: its section comes before, or it is more relevant, or as relevant and
      its name comes no later. */
  ghost predicate Precedes(a: Candidate, b: Candidate) {
    || a.section.Rank() < b.section.Rank()
    || (a.section == b.section
        && (a.relevance > b.relevance || (a.relevance == b.relevance && NoLater(a.name, b.name))))
  }

  ghost predicate InTurn(s: seq<Candidate>) {
    forall i, j :: 0 <= i < j < |s| ==> Precedes(s[i], s[j])
  }

  lemma {:induction false} SectionInTurn(cands: seq<Candidate>, k: B.Kind)
    ensures InTurn(InOrder(cands, k))
  {
    hide LexLe, NoLater, TotalPreorder, SortBy;
    var list := InOrder(cands, k);
    AheadIsPreorder();
    SortSorts(Ahead, OfSection(cands, k));
    InSection(cands, k);
    forall i, j | 0 <= i < j < |list|
      ensures Precedes(list[i], list[j])
    {
      assert Ahead(list[i], list[j]);
      LexIsNoLater(list[i].name, list[j].name);
    }
  }

  ghost predicate Ascending(kinds: seq<B.Kind>) {
    forall i, j :: 0 <= i < j < |kinds| ==> kinds[i].Rank() < kinds[j].Rank()
  }

  // ---------------------------------------------------------------- what the loop keeps

  /** No level of the candidate fits, header included, in the room that `before` leaves. */
  ghost predicate CannotFit(before: seq<Item>, c: Candidate, available: nat, caps: map<B.Kind, nat>, with: Setting) {
    var room := B.Min(B.Over(available, with.FixedOverhead() + Cost(before)),
                      B.Over(CapOf(caps, c.section), SectionCost(before, c.section)));
    forall l: Level :: Rendering(c.content, l, B.Over(room, with.Overhead(c)), with.count).tokens + with.Overhead(c) > room
  }

  /** When the candidate's turn came, the items before the `n`-th were placed, and left no room for it. */
  ghost predicate FairlyDropped(items: seq<Item>, n: nat, c: Candidate, available: nat, caps: map<B.Kind, nat>, with: Setting)
    requires n <= |items|
  {
    && CannotFit(items[..n], c, available, caps, with)
    && (forall j :: 0 <= j < n ==> Precedes(items[j].candidate, c))
    && (forall j :: n <= j < |items| ==> Precedes(c, items[j].candidate))
  }

  /** The loop gave up on the policy candidate `c`, which no level of fits what `items` leave: it reports what
      `c` needs in full and what its section was given. */
  ghost predicate FailedFor(items: seq<Item>, failure: Failure, c: Candidate, available: nat, caps: map<B.Kind, nat>, with: Setting) {
    && c.trust.Policy? && CannotFit(items, c, available, caps, with)
    && failure.needed == Rendering(c.content, Full, UNLIMITED, with.count).tokens
    && failure.cap == (if c.section in caps then caps[c.section] else 0)
  }

  ghost predicate LeftFairly(items: seq<Item>, c: Candidate, available: nat, caps: map<B.Kind, nat>, with: Setting) {
    exists n :: 0 <= n <= |items| && FairlyDropped(items, n, c, available, caps, with)
  }

  ghost predicate GaveUpFairly(st: Fit, seen: seq<Candidate>, available: nat, caps: map<B.Kind, nat>, with: Setting) {
    st.failed.Some? ==> exists c :: c in seen && FailedFor(st.items, st.failed.value, c, available, caps, with)
  }

  /** The loop has served the candidates of `seen` in turn. */
  ghost predicate Fair(st: Fit, seen: seq<Candidate>, available: nat, caps: map<B.Kind, nat>, with: Setting) {
    && InTurn(Placed(st.items)) && InTurn(Refused(st.dropped))
    && (forall i :: 0 <= i < |st.items| ==> st.items[i].candidate in seen)
    && (forall i :: 0 <= i < |st.dropped| ==>
          && st.dropped[i].candidate in seen
          && LeftFairly(st.items, st.dropped[i].candidate, available, caps, with))
    && GaveUpFairly(st, seen, available, caps, with)
  }

  lemma {:induction false} RefusedMeans(st: Fit, c: Candidate, available: nat, caps: map<B.Kind, nat>, with: Setting)
    requires st.globalUsed == with.FixedOverhead() + Cost(st.items) && st.sectionUsed == SectionCost(st.items, c.section)
    requires var hard := Room(st, available, CapOf(caps, c.section));
      var fitted := FitOne(c.content, B.Over(hard, with.Overhead(c)), with.count);
      !(fitted.Some? && fitted.value.tokens + with.Overhead(c) <= hard)
    ensures CannotFit(st.items, c, available, caps, with)
  {
    hide Rendering, Setting.Overhead, Setting.FixedOverhead;
    var hard := Room(st, available, CapOf(caps, c.section));
    var fitted := FitOne(c.content, B.Over(hard, with.Overhead(c)), with.count);
    if fitted.Some? {
      assert with.Overhead(c) > hard;
    }
  }

  lemma {:induction false} InTurnGrows(s: seq<Candidate>, c: Candidate)
    requires InTurn(s) && forall x :: x in s ==> Precedes(x, c)
    ensures InTurn(s + [c])
  {
    hide Precedes;
  }

  lemma {:induction false} FairPlace(st: Fit, seen: seq<Candidate>, c: Candidate, available: nat, caps: map<B.Kind, nat>, with: Setting)
    requires st.failed == None && Sound(st, seen, c.section, available, caps, with) && Fair(st, seen, available, caps, with)
    requires forall x :: x in seen ==> Precedes(x, c)
    ensures Fair(Place(st, c, available, CapOf(caps, c.section), with), seen + [c], available, caps, with)
  {
    hide Rendering, Setting.Overhead, FitOne, Setting.FullTokens, Setting.FixedOverhead, WellPlaced, CannotFit, Precedes, Cost, SectionCost;
    var hard := Room(st, available, CapOf(caps, c.section));
    var fitted := FitOne(c.content, B.Over(hard, with.Overhead(c)), with.count);
    if fitted.Some? && fitted.value.tokens + with.Overhead(c) <= hard {
      FairItem(st, Place(st, c, available, CapOf(caps, c.section), with), seen, Item(c, fitted.value, with.Overhead(c)), available, caps, with);
    } else {
      RefusedMeans(st, c, available, caps, with);
      FairRefusal(st, seen, c, available, caps, with);
    }
  }

  lemma {:induction false} FairItem(st: Fit, st': Fit, seen: seq<Candidate>, item: Item, available: nat,
                                    caps: map<B.Kind, nat>, with: Setting)
    requires st'.items == st.items + [item] && st'.dropped == st.dropped && st'.failed == None
    requires Fair(st, seen, available, caps, with) && forall x :: x in seen ==> Precedes(x, item.candidate)
    ensures Fair(st', seen + [item.candidate], available, caps, with)
  {
    hide LeftFairly, FailedFor, Precedes;
    var seen' := seen + [item.candidate];
    assert Placed(st'.items) == Placed(st.items) + [item.candidate];
    InTurnGrows(Placed(st.items), item.candidate);
    forall i | 0 <= i < |st'.dropped|
      ensures st'.dropped[i].candidate in seen' && LeftFairly(st'.items, st'.dropped[i].candidate, available, caps, with)
    {
      assert st.dropped[i].candidate in seen;
      StillLeft(st.items, item, st.dropped[i].candidate, available, caps, with);
    }
    assert forall i :: 0 <= i < |st'.items| ==> st'.items[i].candidate in seen';
  }

  lemma {:induction false} StillLeft(items: seq<Item>, item: Item, c: Candidate, available: nat, caps: map<B.Kind, nat>, with: Setting)
    requires LeftFairly(items, c, available, caps, with) && Precedes(c, item.candidate)
    ensures LeftFairly(items + [item], c, available, caps, with)
  {
    hide CannotFit, Precedes;
    var n :| 0 <= n <= |items| && FairlyDropped(items, n, c, available, caps, with);
    assert (items + [item])[..n] == items[..n];
    assert FairlyDropped(items + [item], n, c, available, caps, with);
  }

  lemma {:induction false} LeftNow(items: seq<Item>, seen: seq<Candidate>, c: Candidate, available: nat, caps: map<B.Kind, nat>, with: Setting)
    requires CannotFit(items, c, available, caps, with)
    requires forall x :: x in seen ==> Precedes(x, c)
    requires forall i :: 0 <= i < |items| ==> items[i].candidate in seen
    ensures LeftFairly(items, c, available, caps, with)
  {
    hide CannotFit, Precedes;
    assert items[..|items|] == items;
    assert FairlyDropped(items, |items|, c, available, caps, with);
  }

  lemma {:induction false} FairRefusal(st: Fit, seen: seq<Candidate>, c: Candidate, available: nat, caps: map<B.Kind, nat>, with: Setting)
    requires st.failed == None
    requires Fair(st, seen, available, caps, with) && forall x :: x in seen ==> Precedes(x, c)
    requires CannotFit(st.items, c, available, caps, with)
    ensures Fair(Refuse(st, c, CapOf(caps, c.section), with), seen + [c], available, caps, with)
  {
    hide CannotFit, Precedes, Rendering, LeftFairly;
    var st' := Refuse(st, c, CapOf(caps, c.section), with);
    var seen' := seen + [c];
    assert c in seen';
    if c.trust.Policy? {
      assert FailedFor(st'.items, st'.failed.value, c, available, caps, with);
    } else {
      LeftNow(st.items, seen, c, available, caps, with);
      assert Refused(st'.dropped) == Refused(st.dropped) + [c];
      InTurnGrows(Refused(st.dropped), c);
      forall i | 0 <= i < |st'.dropped|
        ensures st'.dropped[i].candidate in seen' && LeftFairly(st'.items, st'.dropped[i].candidate, available, caps, with)
      {
        assert i < |st.dropped| ==> st.dropped[i].candidate in seen;
      }
    }
    assert forall i :: 0 <= i < |st.items| ==> st.items[i].candidate in seen';
  }

  lemma {:induction false} FairList(st: Fit, seen: seq<Candidate>, list: seq<Candidate>, k: B.Kind, available: nat,
                                    caps: map<B.Kind, nat>, with: Setting)
    requires st.failed == None && Sound(st, seen, k, available, caps, with) && Fair(st, seen, available, caps, with)
    requires InTurn(seen + list) && forall i :: 0 <= i < |list| ==> list[i].section == k
    ensures Fair(PlaceList(st, list, available, CapOf(caps, k), with), seen + list, available, caps, with)
  {
    hide Place, Sound, Fair, Precedes;
    if list == [] {
      assert seen + list == seen;
    } else {
      var before, c := list[..|list| - 1], list[|list| - 1];
      var whole := seen + list;
      assert whole[..|whole| - 1] == seen + before && whole == (seen + before) + [c];
      assert InTurn(seen + before) by {
        assert forall i :: 0 <= i < |seen + before| ==> whole[i] == (seen + before)[i];
      }
      FairList(st, seen, before, k, available, caps, with);
      SoundList(st, seen, before, k, available, caps, with);
      var mid := PlaceList(st, before, available, CapOf(caps, k), with);
      if mid.failed == None {
        forall x | x in seen + before
          ensures Precedes(x, c)
        {
          var i :| 0 <= i < |seen + before| && (seen + before)[i] == x;
          assert whole[i] == x && whole[|whole| - 1] == c;
        }
        FairPlace(mid, seen + before, c, available, caps, with);
      } else {
        FailedStays(mid, c, available, CapOf(caps, k), with);
        FairWithMore(mid, seen + before, [c], available, caps, with);
      }
    }
  }

  lemma {:induction false} FairWithMore(st: Fit, seen: seq<Candidate>, more: seq<Candidate>, available: nat,
                                        caps: map<B.Kind, nat>, with: Setting)
    requires Fair(st, seen, available, caps, with)
    ensures Fair(st, seen + more, available, caps, with)
  {
    hide LeftFairly, InTurn, FailedFor;
  }

  /** The loop considers the sections in their order, and in each the most relevant candidates first. */
  lemma {:induction false} ConsideredInTurn(cands: seq<Candidate>, kinds: seq<B.Kind>)
    requires Ascending(kinds)
    ensures InTurn(Considered(cands, kinds))
  {
    hide InOrder, NoLater;
    if kinds != [] {
      var before, k := kinds[..|kinds| - 1], kinds[|kinds| - 1];
      var a, b := Considered(cands, before), InOrder(cands, k);
      ConsideredInTurn(cands, before);
      SectionInTurn(cands, k);
      ConsideredSections(cands, before);
      InSection(cands, k);
      forall i, j | 0 <= i < j < |a + b|
        ensures Precedes((a + b)[i], (a + b)[j])
      {
        if i < |a| <= j {
          assert a[i] in a;
          assert a[i].section in before;
        }
      }
    }
  }

  lemma {:induction false} FairSections(kinds: seq<B.Kind>, cands: seq<Candidate>, available: nat, caps: map<B.Kind, nat>, with: Setting)
    requires Ascending(kinds)
    ensures var st := PlaceSections(Fit(with.FixedOverhead(), 0, [], [], None), kinds, cands, available, caps, with);
      Fair(st, Considered(cands, kinds), available, caps, with)
  {
    hide PlaceList, Sound, Fair, InOrder, InTurn;
    var st0 := Fit(with.FixedOverhead(), 0, [], [], None);
    if kinds == [] {
      FairStart(available, caps, with);
    } else {
      var before, k := kinds[..|kinds| - 1], kinds[|kinds| - 1];
      var mid := PlaceSections(st0, before, cands, available, caps, with);
      FairSections(before, cands, available, caps, with);
      if mid.failed == None {
        SoundSections(before, cands, available, caps, with);
        ConsideredSections(cands, before);
        SoundEntry(mid, Considered(cands, before), LastOf(before), k, available, caps, with);
        InSection(cands, k);
        ConsideredInTurn(cands, kinds);
        FairEntry(mid, Considered(cands, before), available, caps, with);
        FairList(mid.(sectionUsed := 0), Considered(cands, before), InOrder(cands, k), k, available, caps, with);
      } else {
        FairWithMore(mid, Considered(cands, before), InOrder(cands, k), available, caps, with);
      }
    }
  }

  lemma {:induction false} FairStart(available: nat, caps: map<B.Kind, nat>, with: Setting)
    ensures Fair(Fit(with.FixedOverhead(), 0, [], [], None), [], available, caps, with)
  {
  }

  lemma {:induction false} FairEntry(st: Fit, seen: seq<Candidate>, available: nat, caps: map<B.Kind, nat>, with: Setting)
    requires Fair(st, seen, available, caps, with)
    ensures Fair(st.(sectionUsed := 0), seen, available, caps, with)
  {
    hide LeftFairly, InTurn, FailedFor;
  }

  lemma {:induction false} KindsAscend()
    ensures Ascending(B.KINDS)
  {
  }

  lemma {:induction false} AssemblyIsFair(cands: seq<Candidate>, budget: B.ContextBudget, with: Setting)
    requires AssembledFrom(cands, budget, with).Assembled?
    ensures var r := AssembledFrom(cands, budget, with);
      exists used: nat, last: nat ::
        Fair(Fit(used, last, r.items, r.dropped, None), Considered(cands, B.KINDS), budget.Available(), r.allocation, with)
  {
    hide PlaceSections, Fair, DemandOf, Considered, B.Passes, B.FirstUnbudgeted, B.FloorTotal;
    var r := AssembledFrom(cands, budget, with);
    KindsAscend();
    FairSections(B.KINDS, cands, budget.Available(), r.allocation, with);
    var st := PlaceSections(Fit(with.FixedOverhead(), 0, [], [], None), B.KINDS, cands, budget.Available(), r.allocation, with);
    assert st == Fit(st.globalUsed, st.sectionUsed, r.items, r.dropped, None);
  }

  // ---------------------------------------------------------------- what that means for a prompt

  /** Within a section the placed candidates, and likewise the dropped ones, come in falling relevance, and
      those of one relevance by name. */
  lemma {:induction false} MostRelevantFirst(cands: seq<Candidate>, budget: B.ContextBudget, with: Setting)
    requires AssembledFrom(cands, budget, with).Assembled?
    ensures var items := AssembledFrom(cands, budget, with).items;
      forall i, j :: 0 <= i < j < |items| && items[i].candidate.section == items[j].candidate.section ==>
        && items[i].candidate.relevance >= items[j].candidate.relevance
        && (items[i].candidate.relevance == items[j].candidate.relevance ==> NoLater(items[i].candidate.name, items[j].candidate.name))
    ensures var dropped := AssembledFrom(cands, budget, with).dropped;
      forall i, j :: 0 <= i < j < |dropped| && dropped[i].candidate.section == dropped[j].candidate.section ==>
        && dropped[i].candidate.relevance >= dropped[j].candidate.relevance
        && (dropped[i].candidate.relevance == dropped[j].candidate.relevance ==> NoLater(dropped[i].candidate.name, dropped[j].candidate.name))
  {
    hide AssembledFrom, LeftFairly, NoLater;
    var r := AssembledFrom(cands, budget, with);
    AssemblyIsFair(cands, budget, with);
    assert InTurn(Placed(r.items)) && InTurn(Refused(r.dropped));
    forall i, j | 0 <= i < j < |r.items|
      ensures Precedes(r.items[i].candidate, r.items[j].candidate)
    {
      assert Precedes(Placed(r.items)[i], Placed(r.items)[j]);
    }
    forall i, j | 0 <= i < j < |r.dropped|
      ensures Precedes(r.dropped[i].candidate, r.dropped[j].candidate)
    {
      assert Precedes(Refused(r.dropped)[i], Refused(r.dropped)[j]);
    }
  }

  /** A candidate is dropped only for want of room, and not for the sake of a less relevant one: there is a
      place in the prompt such that every item of its section before it is no less relevant, every one behind
      it no more, and no level of the candidate fits in the room the items before it leave. */
  lemma {:induction false} DroppedForMoreRelevant(cands: seq<Candidate>, budget: B.ContextBudget, with: Setting, i: nat)
    requires AssembledFrom(cands, budget, with).Assembled? && i < |AssembledFrom(cands, budget, with).dropped|
    ensures var r := AssembledFrom(cands, budget, with); var c := r.dropped[i].candidate;
      exists n :: 0 <= n <= |r.items|
        && CannotFit(r.items[..n], c, budget.Available(), r.allocation, with)
        && (forall j :: 0 <= j < n && r.items[j].candidate.section == c.section ==> r.items[j].candidate.relevance >= c.relevance)
        && (forall j :: n <= j < |r.items| && r.items[j].candidate.section == c.section ==> r.items[j].candidate.relevance <= c.relevance)
  {
    hide AssembledFrom, CannotFit, NoLater, InTurn;
    var r := AssembledFrom(cands, budget, with);
    AssemblyIsFair(cands, budget, with);
    var c := r.dropped[i].candidate;
    var n :| 0 <= n <= |r.items| && FairlyDropped(r.items, n, c, budget.Available(), r.allocation, with);
    assert CannotFit(r.items[..n], c, budget.Available(), r.allocation, with);
  }

  /** An assembly gives up only for a policy candidate that no level of fits what the items placed before it
      leave; and it says what that candidate needs in full and what its section was given. */
  lemma {:induction false} GivesUpForPolicy(cands: seq<Candidate>, budget: B.ContextBudget, with: Setting)
    requires AssembledFrom(cands, budget, with).PolicyDoesNotFit?
    ensures var r := AssembledFrom(cands, budget, with); var caps := B.Allocation(budget, DemandOf(cands, with)).perSection;
      exists c, items :: c in cands && FailedFor(items, Failure(r.needed, r.cap), c, budget.Available(), caps, with)
  {
    hide PlaceSections, Fair, DemandOf, Considered, FailedFor, B.Passes, B.FirstUnbudgeted, B.FloorTotal;
    var caps := B.Allocation(budget, DemandOf(cands, with)).perSection;
    KindsAscend();
    FairSections(B.KINDS, cands, budget.Available(), caps, with);
    var st := PlaceSections(Fit(with.FixedOverhead(), 0, [], [], None), B.KINDS, cands, budget.Available(), caps, with);
    var c := FailedCandidate(st, Considered(cands, B.KINDS), budget.Available(), caps, with);
    EveryCandidateConsidered(cands);
    SameElements(Considered(cands, B.KINDS), cands);
    assert FailedFor(st.items, st.failed.value, c, budget.Available(), caps, with);
  }

  lemma {:induction false} FailedCandidate(st: Fit, seen: seq<Candidate>, available: nat, caps: map<B.Kind, nat>, with: Setting)
    returns (c: Candidate)
    requires Fair(st, seen, available, caps, with) && st.failed.Some?
    ensures c in seen && FailedFor(st.items, st.failed.value, c, available, caps, with)
  {
    hide LeftFairly, InTurn, FailedFor;
    c :| c in seen && FailedFor(st.items, st.failed.value, c, available, caps, with);
  }

  /** The same for a candidate placed below some level: that level did not fit in the room left by the items
      before it, and those of its section are no less relevant. */
  lemma {:induction false} DegradedForMoreRelevant(cands: seq<Candidate>, budget: B.ContextBudget, with: Setting, i: nat, l: Level)
    requires AssembledFrom(cands, budget, with).Assembled? && i < |AssembledFrom(cands, budget, with).items|
    requires l.Rank() < AssembledFrom(cands, budget, with).items[i].rendered.level.Rank()
    ensures var r := AssembledFrom(cands, budget, with); var c := r.items[i].candidate;
      var room := B.Min(B.Over(budget.Available(), with.FixedOverhead() + Cost(r.items[..i])),
                        B.Over(CapOf(r.allocation, c.section), SectionCost(r.items[..i], c.section)));
      && with.Overhead(c) <= room
      && Rendering(c.content, l, room - with.Overhead(c), with.count).tokens + with.Overhead(c) > room
      && forall j :: 0 <= j < i && r.items[j].candidate.section == c.section ==> r.items[j].candidate.relevance >= c.relevance
  {
    hide AssembledFrom, Rendering, Setting.Overhead, Setting.FixedOverhead, Cost, SectionCost, NoLater;
    AssemblyIsSound(cands, budget, with);
    MostRelevantFirst(cands, budget, with);
    var r := AssembledFrom(cands, budget, with);
    assert WellPlaced(r.items, i, budget.Available(), r.allocation, with);
  }

  // ---------------------------------------------------------------- what is charged

  /** The accounted whole is the policy, the data frame, the task intent, twenty-four tokens for headers, and
      for each item its rendering and what stands around it: a header, or for what is not to be trusted as
      instructions a fence whose opening names section, source and nonce, its closing and forty tokens more. */
  lemma {:induction false} ChargedInFull(cands: seq<Candidate>, budget: B.ContextBudget, with: Setting, i: nat)
    requires AssembledFrom(cands, budget, with).Assembled? && i < |AssembledFrom(cands, budget, with).items|
    ensures var r := AssembledFrom(cands, budget, with); var c := r.items[i].candidate;
      && r.accounted == with.count(with.policy) + with.count(with.frame) + with.count(with.intent) + 24 + Cost(r.items)
      && Cost(r.items) == Cost(r.items[..i]) + r.items[i].rendered.tokens + r.items[i].overhead + Cost(r.items[i + 1..])
      && r.items[i].overhead ==
         if c.trust.Policy? || c.trust.Instruction? then with.count("\n## " + c.name + " (Instruction)\n") + 2
         else with.count("<<valyria-data:" + with.nonce + " section=\"" + SECTION_NAMES[c.section.Rank()] + "\" source=\"" + c.name
                         + "\" trust=\"Instruction\">>\n")
              + with.count("<<valyria-data-end:" + with.nonce + ">>\n") + 40
  {
    hide AssembledFrom, Rendering, Cost, SectionCost;
    AssemblyIsSound(cands, budget, with);
    var r := AssembledFrom(cands, budget, with);
    assert WellPlaced(r.items, i, budget.Available(), r.allocation, with);
    CostSplits(r.items, i);
  }

  const SECTION_NAMES: seq<string> := ["policy", "instructions", "memory", "task", "repository", "evidence", "history"]

  lemma {:induction false} CostSplits(items: seq<Item>, i: nat)
    requires i < |items|
    ensures Cost(items) == Cost(items[..i]) + items[i].Cost() + Cost(items[i + 1..])
  {
    var last := |items| - 1;
    if i == last {
      assert items[i + 1..] == [];
    } else {
      CostSplits(items[..last], i);
      assert items[..last][..i] == items[..i];
      assert items[i + 1..][..last - i - 1] == items[..last][i + 1..];
    }
  }

  /** A text is measured whole, up to a quarter of the largest token count. */
  lemma {:induction false} TextMeasuredWhole(c: Candidate, with: Setting)
    requires c.content.Text? && with.count(c.content.text) <= 0x3FFF_FFFF_FFFF_FFFF
    ensures with.FullTokens(c) == with.count(c.content.text)
  {
    hide Lines, MostLines;
  }
}
