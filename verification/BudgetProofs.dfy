/** When the allocator succeeds, where every cap lies, and whom scarcity hits. */
module BudgetProofs {
  import opened Sequences
  import opened Budget

  /** No two sections of the same kind. */
  ghost predicate OneEach(s: seq<Section>) {
    forall i, j :: 0 <= i < j < |s| ==> s[i].kind != s[j].kind
  }

  // ---------------------------------------------------------------- totals

  function SumOver(alloc: map<Kind, nat>, kinds: seq<Kind>): nat {
    if kinds == [] then 0
    else SumOver(alloc, kinds[..|kinds| - 1])
         + (if kinds[|kinds| - 1] in alloc then alloc[kinds[|kinds| - 1]] else 0)
  }

  function Total(alloc: map<Kind, nat>): nat {
    SumOver(alloc, KINDS)
  }

  /** The floors added up without saturation. */
  function TrueFloors(sections: seq<Section>, d: Demand): nat {
    if sections == [] then 0
    else TrueFloors(sections[..|sections| - 1], d) + Floor(sections[|sections| - 1], d)
  }

  lemma {:induction false} SumElsewhere(alloc: map<Kind, nat>, kinds: seq<Kind>, k: Kind, v: nat)
    requires k !in kinds
    ensures SumOver(alloc[k := v], kinds) == SumOver(alloc, kinds)
  {
    if kinds != [] {
      SumElsewhere(alloc, kinds[..|kinds| - 1], k, v);
      assert kinds[|kinds| - 1] in kinds;
    }
  }

  lemma {:induction false} SumUpdated(alloc: map<Kind, nat>, kinds: seq<Kind>, k: Kind, v: nat)
    requires forall i, j :: 0 <= i < j < |kinds| ==> kinds[i] != kinds[j]
    requires k in kinds
    ensures SumOver(alloc[k := v], kinds) + (if k in alloc then alloc[k] else 0) == SumOver(alloc, kinds) + v
  {
    var before, last := kinds[..|kinds| - 1], kinds[|kinds| - 1];
    if last == k {
      SumElsewhere(alloc, before, k, v);
    } else {
      SumUpdated(alloc, before, k, v);
    }
  }

  lemma {:induction false} EveryKind(k: Kind)
    ensures k in KINDS && KINDS[k.Rank()] == k
    ensures forall i, j :: 0 <= i < j < |KINDS| ==> KINDS[i] != KINDS[j]
  {
    assert KINDS[k.Rank()] == k;
  }

  lemma {:induction false} TotalUpdated(alloc: map<Kind, nat>, k: Kind, v: nat)
    ensures Total(alloc[k := v]) + (if k in alloc then alloc[k] else 0) == Total(alloc) + v
  {
    EveryKind(k);
    SumUpdated(alloc, KINDS, k, v);
  }

  /** Topping up moves tokens from the remainder into the sections and loses none. */
  lemma {:induction false} TopUpConserves(x: Tokens, order: seq<Section>, t: Target, d: Demand)
    requires Covers(x.alloc, order)
    ensures var y := TopUp(x, order, t, d); Total(y.alloc) + y.remaining == Total(x.alloc) + x.remaining
  {
    hide Total;
    if order != [] {
      var last := order[|order| - 1];
      TopUpConserves(x, order[..|order| - 1], t, d);
      var y := TopUp(x, order[..|order| - 1], t, d);
      assert last.kind in y.alloc.Keys;
      TotalUpdated(y.alloc, last.kind, GrantTo(y, last, t, d).alloc[last.kind]);
    }
  }

  lemma {:induction false} TotalOfNothing()
    ensures Total(map[]) == 0
  {
    var m: map<Kind, nat> := map[];
    SumOfNothing(KINDS);
  }

  lemma {:induction false} SumOfNothing(kinds: seq<Kind>)
    ensures SumOver(map[], kinds) == 0
  {
    if kinds != [] {
      SumOfNothing(kinds[..|kinds| - 1]);
    }
  }

  lemma {:induction false} TotalOfFloors(sections: seq<Section>, d: Demand)
    ensures Total(Floors(sections, d)) <= TrueFloors(sections, d)
    ensures OneEach(sections) ==> Total(Floors(sections, d)) == TrueFloors(sections, d)
  {
    hide Total, Floor;
    if sections == [] {
      TotalOfNothing();
    } else {
      var before, last := sections[..|sections| - 1], sections[|sections| - 1];
      TotalOfFloors(before, d);
      TotalUpdated(Floors(before, d), last.kind, Floor(last, d));
      assert forall i :: 0 <= i < |before| ==> before[i].kind == sections[i].kind;
    }
  }

  lemma {:induction false} SaturatedFloors(sections: seq<Section>, d: Demand)
    ensures FloorTotal(sections, d) == Min(TrueFloors(sections, d), USIZE_MAX)
  {
    if sections != [] {
      SaturatedFloors(sections[..|sections| - 1], d);
    }
  }

  /** Allocation succeeds if and only if every demanded section has a spec and the capped floors fit,
      or add up past the largest token count while every token is available. */
  lemma {:induction false} SucceedsIff(b: ContextBudget, d: Demand)
    ensures Allocation(b, d).Allocated? <==>
      && (forall k :: k in d ==> b.Budgets(k))
      && (TrueFloors(b.sections, d) <= b.Available() || b.Available() == USIZE_MAX)
    ensures Allocation(b, d).Unbudgeted? <==> exists k :: k in d && !b.Budgets(k)
  {
    hide TopUp, ByPriority, Floors;
    SaturatedFloors(b.sections, d);
    forall k | k in d
      ensures k in KINDS
    {
      EveryKind(k);
    }
  }

  /** What a failure says: the first section, in declared order, that is demanded and has no spec; or how much
      the floors come to, as far as the sum can tell, and how much there is. */
  lemma {:induction false} FailureSays(b: ContextBudget, d: Demand)
    ensures var r := Allocation(b, d);
      && (r.Unbudgeted? ==>
            r.kind in d && !b.Budgets(r.kind) && forall k: Kind :: k in d && k.Rank() < r.kind.Rank() ==> b.Budgets(k))
      && (r.Infeasible? ==>
            && r.needed == (if TrueFloors(b.sections, d) <= USIZE_MAX then TrueFloors(b.sections, d) else USIZE_MAX)
            && r.available == (if b.totalTokens > b.reserveForOutput then b.totalTokens - b.reserveForOutput else 0)
            && r.needed > r.available)
  {
    hide TopUp, ByPriority, Floors, FirstUnbudgeted, ContextBudget.Budgets;
    SaturatedFloors(b.sections, d);
    var missing := FirstUnbudgeted(KINDS, b, d);
    if missing.Some? {
      MissingIsFirst(KINDS, b, d);
      forall k: Kind | k in d && k.Rank() < missing.value.Rank()
        ensures b.Budgets(k)
      {
        EveryKind(k);
        EveryKind(missing.value);
        assert KINDS[k.Rank()] == k && KINDS[missing.value.Rank()] == missing.value;
      }
    }
  }

  lemma {:induction false} MissingIsFirst(kinds: seq<Kind>, b: ContextBudget, d: Demand)
    requires FirstUnbudgeted(kinds, b, d).Some?
    ensures var k := FirstUnbudgeted(kinds, b, d).value;
      exists n :: 0 <= n < |kinds| && kinds[n] == k && forall i :: 0 <= i < n ==> kinds[i] in d ==> b.Budgets(kinds[i])
  {
    hide ContextBudget.Budgets;
    var k := FirstUnbudgeted(kinds, b, d).value;
    if kinds[0] in d && !b.Budgets(kinds[0]) {
      assert kinds[0] == k;
    } else {
      MissingIsFirst(kinds[1..], b, d);
      var n :| 0 <= n < |kinds[1..]| && kinds[1..][n] == k && forall i :: 0 <= i < n ==> kinds[1..][i] in d ==> b.Budgets(kinds[1..][i]);
      assert kinds[n + 1] == k && forall i :: 0 < i < n + 1 ==> kinds[i] == kinds[1..][i - 1];
    }
  }

  lemma {:induction false} PassesConserve(b: ContextBudget, d: Demand)
    requires FloorTotal(b.sections, d) <= b.Available()
    ensures var y := Passes(b, d);
      && Total(y.alloc) + y.remaining == Total(Floors(b.sections, d)) + b.Available() - FloorTotal(b.sections, d)
      && y.remaining <= b.Available() - FloorTotal(b.sections, d)
  {
    hide Total, ByPriority, FloorTotal, Floors, TopUp;
    OrderCovered(b.sections, d);
    var order := ByPriority(b.sections);
    var x := Tokens(Floors(b.sections, d), b.Available() - FloorTotal(b.sections, d));
    TopUpConserves(x, order, Ideal, d);
    var y := TopUp(x, order, Ideal, d);
    SameCover(x.alloc, y.alloc, order);
    TopUpConserves(y, order, Most, d);
  }

  /** On success the total is what was available less what neither pass could place; and it stays within
      the available tokens if and only if the floors do. */
  lemma {:induction false} TotalIs(b: ContextBudget, d: Demand)
    requires Allocation(b, d).Allocated? && OneEach(b.sections)
    ensures var total := Total(Allocation(b, d).perSection);
      && (total <= b.Available() <==> TrueFloors(b.sections, d) <= b.Available())
      && (b.Available() < USIZE_MAX ==> total <= b.Available())
      && (total <= b.Available() ==> total + Passes(b, d).remaining == b.Available())
  {
    hide Total, Passes;
    SaturatedFloors(b.sections, d);
    TotalOfFloors(b.sections, d);
    PassesConserve(b, d);
  }

  /** Even when kinds repeat, no more is handed out than is available, short of saturation. */
  lemma {:induction false} NeverOverspends(b: ContextBudget, d: Demand)
    requires Allocation(b, d).Allocated? && b.Available() < USIZE_MAX
    ensures Total(Allocation(b, d).perSection) <= b.Available()
  {
    hide Total, Passes;
    SaturatedFloors(b.sections, d);
    TotalOfFloors(b.sections, d);
    PassesConserve(b, d);
  }

  /** The saturating sum can hide floors that do not fit: with every token available, two sections that
      each insist on all of them are both given them. */
  lemma {:induction false} SaturationOverspends()
    ensures var b := ContextBudget(USIZE_MAX, 0, [Section(Policy, USIZE_MAX, USIZE_MAX, USIZE_MAX, 1),
                                                   Section(Task, USIZE_MAX, USIZE_MAX, USIZE_MAX, 0)]);
      var d: Demand := map[Policy := USIZE_MAX, Task := USIZE_MAX];
      Allocation(b, d).Allocated? && Total(Allocation(b, d).perSection) > b.Available()
  {
    hide Allocation, Total, Passes, FloorTotal;
    var first, second := Section(Policy, USIZE_MAX, USIZE_MAX, USIZE_MAX, 1), Section(Task, USIZE_MAX, USIZE_MAX, USIZE_MAX, 0);
    var b := ContextBudget(USIZE_MAX, 0, [first, second]);
    var d: Demand := map[Policy := USIZE_MAX, Task := USIZE_MAX];
    assert b.sections[0].kind == Policy && b.sections[1].kind == Task;
    SucceedsIff(b, d);
    TotalIs(b, d);
    assert b.sections[..1] == [first];
    assert TrueFloors([], d) == 0;
    assert TrueFloors([first], d) == USIZE_MAX;
  }

  // ---------------------------------------------------------------- the closed form

  /** What a section holds once it has its ideal, and once it has all it may. */
  function IdealCap(s: Section, d: Demand): nat {
    Max(Floor(s, d), TargetOf(s, Ideal, d))
  }

  function MostCap(s: Section, d: Demand): nat {
    Max(IdealCap(s, d), TargetOf(s, Most, d))
  }

  function Ask(s: Section, t: Target, d: Demand): nat {
    if t.Ideal? then IdealCap(s, d) - Floor(s, d) else MostCap(s, d) - IdealCap(s, d)
  }

  /** What the first `n` sections ask for. */
  function Asks(order: seq<Section>, t: Target, d: Demand, n: nat): nat
    requires n <= |order|
  {
    if n == 0 then 0 else Asks(order, t, d, n - 1) + Ask(order[n - 1], t, d)
  }

  /** What is granted of `need` when `before` was asked for first. */
  function Grant(tokens: nat, before: nat, need: nat): nat {
    Min(need, Over(tokens, before))
  }

  /** The cap of the `i`-th section when `tokens` are left after the floors. */
  function CapOf(order: seq<Section>, d: Demand, tokens: nat, i: nat): nat
    requires i < |order|
  {
    Floor(order[i], d)
    + Grant(tokens, Asks(order, Ideal, d, i), Ask(order[i], Ideal, d))
    + Grant(tokens, Asks(order, Ideal, d, |order|) + Asks(order, Most, d, i), Ask(order[i], Most, d))
  }

  lemma {:induction false} AsksGrow(order: seq<Section>, t: Target, d: Demand, i: nat, n: nat)
    requires i < n <= |order|
    ensures Asks(order, t, d, i) + Ask(order[i], t, d) <= Asks(order, t, d, n)
  {
    if i < n - 1 {
      AsksGrow(order, t, d, i, n - 1);
    }
  }

  /** The allocation holds, for each section, what `held` says. */
  ghost predicate Holds(alloc: map<Kind, nat>, order: seq<Section>, held: seq<nat>) {
    && |held| == |order|
    && forall i :: 0 <= i < |order| ==> order[i].kind in alloc && alloc[order[i].kind] == held[i]
  }

  /** What is held once the first `n` sections of a pass were served. */
  function Served(order: seq<Section>, t: Target, d: Demand, tokens: nat, held: seq<nat>, n: nat): seq<nat>
    requires |held| == |order| && n <= |order|
  {
    seq(|order|, i requires 0 <= i < |order| =>
          held[i] + (if i < n then Grant(tokens, Asks(order, t, d, i), Ask(order[i], t, d)) else 0))
  }

  lemma {:induction false} GrantOne(x: Tokens, order: seq<Section>, t: Target, d: Demand, held: seq<nat>, n: nat)
    requires OneEach(order) && Holds(x.alloc, order, held) && n < |order|
    ensures var grant := Min(Over(TargetOf(order[n], t, d), held[n]), x.remaining);
      var y := GrantTo(x, order[n], t, d);
      y.remaining == x.remaining - grant && Holds(y.alloc, order, held[n := held[n] + grant])
  {
    hide TargetOf;
  }

  /** One pass over a prefix, when every section still asks for its whole share. */
  lemma {:induction false} OnePass(x: Tokens, order: seq<Section>, t: Target, d: Demand, held: seq<nat>, n: nat)
    requires OneEach(order) && n <= |order| && Covers(x.alloc, order)
    requires Holds(x.alloc, order, held)
    requires forall i :: 0 <= i < |order| ==> Over(TargetOf(order[i], t, d), held[i]) == Ask(order[i], t, d)
    ensures var y := TopUp(x, order[..n], t, d);
      && y.remaining == Over(x.remaining, Asks(order, t, d, n))
      && Holds(y.alloc, order, Served(order, t, d, x.remaining, held, n))
  {
    hide Ask, TargetOf, GrantTo, Holds, OneEach, TopUp, Served;
    HeldAlready(x, order, held);
    if n == 0 {
      TopUpNone(x, t, d);
      assert order[..0] == [];
      ServedNone(order, t, d, x.remaining, held);
    } else {
      ServedOne(order, t, d, x.remaining, held, n - 1);
      OnePass(x, order, t, d, held, n - 1);
      TopUpOne(x, order, t, d, n - 1);
      var y := TopUp(x, order[..n - 1], t, d);
      var before := Served(order, t, d, x.remaining, held, n - 1);
      GrantOne(y, order, t, d, before, n - 1);
    }
  }

  lemma {:induction false} ServedNone(order: seq<Section>, t: Target, d: Demand, tokens: nat, held: seq<nat>)
    requires |held| == |order|
    ensures Served(order, t, d, tokens, held, 0) == held
  {
  }

  lemma {:induction false} ServedOne(order: seq<Section>, t: Target, d: Demand, tokens: nat, held: seq<nat>, n: nat)
    requires |held| == |order| && n < |order|
    ensures var before := Served(order, t, d, tokens, held, n);
      && |before| == |order| && before[n] == held[n]
      && Served(order, t, d, tokens, held, n + 1)
         == before[n := before[n] + Grant(tokens, Asks(order, t, d, n), Ask(order[n], t, d))]
  {
    hide Ask, Asks, Grant;
  }

  lemma {:induction false} HeldAlready(x: Tokens, order: seq<Section>, held: seq<nat>)
    requires Holds(x.alloc, order, held)
    ensures |held| == |order|
  {
  }

  /** Once the tokens are gone a pass changes nothing, whatever it would ask for. */
  lemma {:induction false} EmptyPass(x: Tokens, order: seq<Section>, t: Target, d: Demand)
    requires Covers(x.alloc, order) && x.remaining == 0
    ensures TopUp(x, order, t, d) == x
  {
    TopUpNone(x, t, d);
    assert order[..0] == [];
    NothingLeft(x, order, t, d, 0);
  }

  function FloorCaps(order: seq<Section>, d: Demand): seq<nat> {
    seq(|order|, i requires 0 <= i < |order| => Floor(order[i], d))
  }

  function IdealCaps(order: seq<Section>, d: Demand): seq<nat> {
    seq(|order|, i requires 0 <= i < |order| => IdealCap(order[i], d))
  }

  function FinalCaps(order: seq<Section>, d: Demand, tokens: nat): seq<nat> {
    seq(|order|, i requires 0 <= i < |order| => CapOf(order, d, tokens, i))
  }

  /** With tokens to spare, the first pass gives everyone their ideal. */
  lemma {:induction false} AllServed(order: seq<Section>, d: Demand, tokens: nat)
    requires tokens > Asks(order, Ideal, d, |order|)
    ensures Served(order, Ideal, d, tokens, FloorCaps(order, d), |order|) == IdealCaps(order, d)
  {
    hide Floor, TargetOf, Asks, Grant;
    forall i | 0 <= i < |order|
      ensures Grant(tokens, Asks(order, Ideal, d, i), Ask(order[i], Ideal, d)) == Ask(order[i], Ideal, d)
    {
      FullyServed(order, d, tokens, i);
    }
  }

  lemma {:induction false} FullyServed(order: seq<Section>, d: Demand, tokens: nat, i: nat)
    requires tokens > Asks(order, Ideal, d, |order|) && i < |order|
    ensures Grant(tokens, Asks(order, Ideal, d, i), Ask(order[i], Ideal, d)) == Ask(order[i], Ideal, d)
  {
    hide Ask, Asks;
    AsksGrow(order, Ideal, d, i, |order|);
  }

  /** And the second pass then shares out the rest. */
  lemma {:induction false} RestServed(order: seq<Section>, d: Demand, tokens: nat)
    requires tokens > Asks(order, Ideal, d, |order|)
    ensures Served(order, Most, d, tokens - Asks(order, Ideal, d, |order|), IdealCaps(order, d), |order|)
            == FinalCaps(order, d, tokens)
  {
    hide Floor, TargetOf, Asks, Grant, Served;
    var all := Asks(order, Ideal, d, |order|);
    var served := Served(order, Most, d, tokens - all, IdealCaps(order, d), |order|);
    ServedLength(order, Most, d, tokens - all, IdealCaps(order, d));
    forall i | 0 <= i < |order|
      ensures served[i] == CapOf(order, d, tokens, i)
    {
      FullyServed(order, d, tokens, i);
      GrantShifts(tokens, all, Asks(order, Most, d, i), Ask(order[i], Most, d));
    }
  }

  lemma {:induction false} ServedLength(order: seq<Section>, t: Target, d: Demand, tokens: nat, held: seq<nat>)
    requires |held| == |order|
    ensures var s := Served(order, t, d, tokens, held, |order|);
      |s| == |order| && forall i :: 0 <= i < |order| ==> s[i] == held[i] + Grant(tokens, Asks(order, t, d, i), Ask(order[i], t, d))
  {
    hide Asks, Ask, Grant;
  }

  lemma {:induction false} GrantShifts(tokens: nat, taken: nat, before: nat, need: nat)
    requires taken <= tokens
    ensures Grant(tokens - taken, before, need) == Grant(tokens, taken + before, need)
  {
  }

  lemma {:induction false} NoneLeftOver(order: seq<Section>, d: Demand, tokens: nat)
    requires tokens <= Asks(order, Ideal, d, |order|)
    ensures Served(order, Ideal, d, tokens, FloorCaps(order, d), |order|) == FinalCaps(order, d, tokens)
  {
    hide Floor, TargetOf, Ask;
  }

  /** Both passes, in closed form. */
  lemma {:induction false} TwoPasses(x: Tokens, order: seq<Section>, d: Demand)
    requires OneEach(order) && Covers(x.alloc, order) && Holds(x.alloc, order, FloorCaps(order, d))
    ensures var y := TopUp(x, order, Ideal, d);
      && Covers(y.alloc, order)
      && Holds(TopUp(y, order, Most, d).alloc, order, FinalCaps(order, d, x.remaining))
      && TopUp(y, order, Most, d).remaining == Over(x.remaining, Asks(order, Ideal, d, |order|) + Asks(order, Most, d, |order|))
  {
    hide Floor, TopUp, Holds, OneEach, Covers, Served, Asks, TargetOf, CapOf;
    var n := |order|;
    assert order[..n] == order;
    OnePass(x, order, Ideal, d, FloorCaps(order, d), n);
    var y := TopUp(x, order, Ideal, d);
    SameCover(x.alloc, y.alloc, order);
    if x.remaining <= Asks(order, Ideal, d, n) {
      NoneLeftOver(order, d, x.remaining);
      EmptyPass(y, order, Most, d);
    } else {
      AllServed(order, d, x.remaining);
      RestServed(order, d, x.remaining);
      OnePass(y, order, Most, d, IdealCaps(order, d), n);
    }
  }

  /** The sections in the order they are topped up. */
  lemma {:induction false} OrderOfEach(sections: seq<Section>)
    requires OneEach(sections)
    ensures var order := ByPriority(sections);
      OneEach(order) && Ordered(order) && |order| == |sections| && forall s :: s in order <==> s in sections
  {
    hide ByPriority;
    var order := ByPriority(sections);
    Sorts(sections);
    SameElements(sections, order);
    EachStillOnce(sections, order);
  }

  lemma {:induction false} EachOnce(sections: seq<Section>, s: Section)
    requires OneEach(sections)
    ensures multiset(sections)[s] <= 1
  {
    if sections != [] {
      var before, last := sections[..|sections| - 1], sections[|sections| - 1];
      EachOnce(before, s);
      assert sections == before + [last];
      if last == s {
        assert forall i :: 0 <= i < |before| ==> before[i] == sections[i];
        assert s !in before;
        assert s !in multiset(before);
      }
    }
  }

  lemma {:induction false} TwiceIn<T>(s: seq<T>, i: nat, j: nat)
    requires i < j < |s|
    ensures s[i] == s[j] ==> multiset(s)[s[i]] >= 2
  {
    assert s == s[..j] + s[j..];
    assert s[i] == s[..j][i] && s[j] == s[j..][0];
    assert s[i] in multiset(s[..j]) && s[j] in multiset(s[j..]);
  }

  lemma {:induction false} FloorsHold(sections: seq<Section>, d: Demand, i: nat)
    requires OneEach(sections) && i < |sections|
    ensures sections[i].kind in Floors(sections, d) && Floors(sections, d)[sections[i].kind] == Floor(sections[i], d)
  {
    hide Floor;
    if i < |sections| - 1 {
      FloorsHold(sections[..|sections| - 1], d, i);
    }
  }

  /** What one section is given. */
  function Cap(b: ContextBudget, d: Demand, s: Section): nat
    requires Allocation(b, d).Allocated?
  {
    var m := Allocation(b, d).perSection;
    if s.kind in m then m[s.kind] else 0
  }

  /** The allocator's loops, in closed form: the `i`-th section by priority has its floor, and of its
      share of each pass what the tokens left by the sections before it allow. */
  lemma {:induction false} ClosedForm(b: ContextBudget, d: Demand, i: nat)
    requires Allocation(b, d).Allocated? && OneEach(b.sections)
    requires i < |ByPriority(b.sections)|
    ensures var order := ByPriority(b.sections);
      Cap(b, d, order[i]) == CapOf(order, d, b.Available() - FloorTotal(b.sections, d), i)
    ensures var order := ByPriority(b.sections);
      Passes(b, d).remaining == Over(b.Available() - FloorTotal(b.sections, d),
                                     Asks(order, Ideal, d, |order|) + Asks(order, Most, d, |order|))
  {
    hide ByPriority, TopUp, Floors, FloorTotal, CapOf, Asks, Holds, Cap, OneEach, Ordered;
    var order := ByPriority(b.sections);
    OrderOfEach(b.sections);
    OrderCovered(b.sections, d);
    var x := Tokens(Floors(b.sections, d), b.Available() - FloorTotal(b.sections, d));
    FloorsHeld(b.sections, order, d);
    TwoPasses(x, order, d);
    FinalCap(b, d, i);
  }

  lemma {:induction false} FinalCap(b: ContextBudget, d: Demand, i: nat)
    requires Allocation(b, d).Allocated? && i < |ByPriority(b.sections)|
    requires var order := ByPriority(b.sections);
      Holds(Passes(b, d).alloc, order, FinalCaps(order, d, b.Available() - FloorTotal(b.sections, d)))
    ensures var order := ByPriority(b.sections);
      Cap(b, d, order[i]) == CapOf(order, d, b.Available() - FloorTotal(b.sections, d), i)
  {
    hide ByPriority, Passes, FloorTotal, CapOf;
  }

  lemma {:induction false} FloorsHeld(sections: seq<Section>, order: seq<Section>, d: Demand)
    requires OneEach(sections) && forall s :: s in order <==> s in sections
    ensures Holds(Floors(sections, d), order, FloorCaps(order, d))
  {
    hide Floors, Floor;
    forall k | 0 <= k < |order|
      ensures order[k].kind in Floors(sections, d) && Floors(sections, d)[order[k].kind] == Floor(order[k], d)
    {
      assert order[k] in order;
      var n :| 0 <= n < |sections| && sections[n] == order[k];
      FloorsHold(sections, d, n);
    }
  }

  // ---------------------------------------------------------------- fairness

  /** The places of two sections in the order, the one with precedence first. */
  lemma {:induction false} Places(b: ContextBudget, first: Section, second: Section) returns (i: nat, j: nat)
    requires OneEach(b.sections) && first in b.sections && second in b.sections
    ensures var order := ByPriority(b.sections);
      i < |order| && j < |order| && order[i] == first && order[j] == second
      && (ServedFirst(first, second) ==> i < j)
  {
    hide ByPriority;
    var order := ByPriority(b.sections);
    OrderOfEach(b.sections);
    i :| 0 <= i < |order| && order[i] == first;
    j :| 0 <= j < |order| && order[j] == second;
    if j < i {
      assert Before(order[j], order[i]);
    }
  }

  /** The higher priority, or of two alike the kind declared first. */
  predicate ServedFirst(a: Section, b: Section) {
    a.priority > b.priority || (a.priority == b.priority && a.kind.Rank() < b.kind.Rank())
  }

  /** Every cap lies between the section's floor and the smaller of its maximum and its demand. */
  lemma {:induction false} CapBounds(b: ContextBudget, d: Demand, s: Section)
    requires Allocation(b, d).Allocated? && OneEach(b.sections) && s in b.sections && s.WellFormed()
    ensures Floor(s, d) <= Cap(b, d, s) <= Min(s.max, Want(d, s.kind))
  {
    hide ByPriority, Allocation, FloorTotal, Asks, Cap, CapOf, Floor, Want, Min, OneEach;
    var i, _ := Places(b, s, s);
    ClosedForm(b, d, i);
    CapOfBounds(ByPriority(b.sections), d, b.Available() - FloorTotal(b.sections, d), i);
  }

  lemma {:induction false} CapOfBounds(order: seq<Section>, d: Demand, tokens: nat, i: nat)
    requires i < |order| && order[i].WellFormed()
    ensures Floor(order[i], d) <= CapOf(order, d, tokens, i) <= Min(order[i].max, Want(d, order[i].kind))
  {
    hide Asks;
  }

  /** What floors and ceilings are: the section's three bounds, none of them more than it demands; and where the
      bounds are out of order, the larger of one and those below it. */
  lemma {:induction false} CapsMean(s: Section, d: Demand)
    ensures var w := if s.kind in d then d[s.kind] else 0;
      && Floor(s, d) == (if s.min <= w then s.min else w)
      && (s.WellFormed() ==> IdealCap(s, d) == (if s.ideal <= w then s.ideal else w))
      && (s.WellFormed() ==> MostCap(s, d) == (if s.max <= w then s.max else w))
      && (IdealCap(s, d) == Floor(s, d) || Floor(s, d) < IdealCap(s, d) == (if s.ideal <= w then s.ideal else w))
      && (MostCap(s, d) == IdealCap(s, d) || IdealCap(s, d) < MostCap(s, d) == (if s.max <= w then s.max else w))
  {
  }

  /** Scarcity hits the lower priority first: no section rises above its floor while one of higher
      priority is short of its ideal; none rises above its ideal while any is short of its ideal, or one
      of higher priority is short of its maximum. Of two priorities alike the kind declared first wins. */
  lemma {:induction false} PriorityWins(b: ContextBudget, d: Demand, high: Section, low: Section)
    requires Allocation(b, d).Allocated? && OneEach(b.sections) && high in b.sections && low in b.sections
    ensures ServedFirst(high, low) && Cap(b, d, low) > Floor(low, d) ==> Cap(b, d, high) >= IdealCap(high, d)
    ensures Cap(b, d, low) > IdealCap(low, d) ==> Cap(b, d, high) >= IdealCap(high, d)
    ensures ServedFirst(high, low) && Cap(b, d, low) > IdealCap(low, d) ==> Cap(b, d, high) == MostCap(high, d)
  {
    hide ByPriority, Allocation, FloorTotal, Asks, Cap, Floor, TargetOf, IdealCap, MostCap, CapOf, OneEach;
    var i, j := Places(b, high, low);
    ClosedForm(b, d, i);
    ClosedForm(b, d, j);
    PlacesDecide(ByPriority(b.sections), d, b.Available() - FloorTotal(b.sections, d), i, j);
  }

  lemma {:induction false} PlacesDecide(order: seq<Section>, d: Demand, tokens: nat, i: nat, j: nat)
    requires i < |order| && j < |order|
    ensures i < j && CapOf(order, d, tokens, j) > Floor(order[j], d) ==> CapOf(order, d, tokens, i) >= IdealCap(order[i], d)
    ensures CapOf(order, d, tokens, j) > IdealCap(order[j], d) ==> CapOf(order, d, tokens, i) >= IdealCap(order[i], d)
    ensures i < j && CapOf(order, d, tokens, j) > IdealCap(order[j], d) ==> CapOf(order, d, tokens, i) == MostCap(order[i], d)
  {
    hide Asks, Floor, TargetOf;
    AsksGrow(order, Ideal, d, i, |order|);
    AsksGrow(order, Ideal, d, j, |order|);
    if i < j {
      AsksGrow(order, Ideal, d, i, j);
      AsksGrow(order, Most, d, i, j);
    }
  }

  /** Either every available token is given out, or every section has all it may - unless the floors only
      fit because their sum saturates. */
  lemma {:induction false} NothingWasted(b: ContextBudget, d: Demand)
    requires Allocation(b, d).Allocated? && OneEach(b.sections) && TrueFloors(b.sections, d) <= b.Available()
    ensures Total(Allocation(b, d).perSection) == b.Available()
            || forall s :: s in b.sections ==> Cap(b, d, s) == MostCap(s, d)
  {
    hide ByPriority, FloorTotal, Asks, Cap, Floor, TargetOf, IdealCap, MostCap, Total, Passes, TrueFloors;
    TotalIs(b, d);
    if Passes(b, d).remaining > 0 {
      forall s | s in b.sections
        ensures Cap(b, d, s) == MostCap(s, d)
      {
        var i, _ := Places(b, s, s);
        ClosedForm(b, d, i);
        var order := ByPriority(b.sections);
        AsksGrow(order, Ideal, d, i, |order|);
        AsksGrow(order, Most, d, i, |order|);
        AllGranted(order, d, b.Available() - FloorTotal(b.sections, d), i);
      }
    }
  }

  /** The reserve for the output is left alone, short of saturation: what is handed out and the reserve stay
      within the whole, and come to all of it unless every section has all it may. */
  lemma {:induction false} OutputIsReserved(b: ContextBudget, d: Demand)
    requires Allocation(b, d).Allocated? && OneEach(b.sections) && b.reserveForOutput > 0
    ensures var total := Total(Allocation(b, d).perSection);
      && (b.reserveForOutput <= b.totalTokens ==> total + b.reserveForOutput <= b.totalTokens)
      && (b.totalTokens < b.reserveForOutput ==> total == 0)
      && (total + b.reserveForOutput < b.totalTokens ==> forall s :: s in b.sections ==> Cap(b, d, s) == MostCap(s, d))
  {
    hide Allocation, Total, TrueFloors, Cap, MostCap, OneEach;
    NeverOverspends(b, d);
    TotalIs(b, d);
    NothingWasted(b, d);
  }

  lemma {:induction false} AllGranted(order: seq<Section>, d: Demand, tokens: nat, i: nat)
    requires i < |order| && tokens > Asks(order, Ideal, d, |order|) + Asks(order, Most, d, |order|)
    ensures CapOf(order, d, tokens, i) == MostCap(order[i], d)
  {
    hide Asks, Floor, TargetOf;
    AsksGrow(order, Ideal, d, i, |order|);
    AsksGrow(order, Most, d, i, |order|);
  }

  // ---------------------------------------------------------------- relations between allocations

  /** More available tokens never lower a cap. */
  lemma {:induction false} MoreIsMore(b: ContextBudget, b': ContextBudget, d: Demand, s: Section)
    requires b.sections == b'.sections && OneEach(b.sections) && s in b.sections
    requires b.Available() <= b'.Available() && Allocation(b, d).Allocated?
    ensures Allocation(b', d).Allocated? && Cap(b, d, s) <= Cap(b', d, s)
  {
    hide ByPriority, FloorTotal, Asks, Cap, Floor, TargetOf, Passes, FirstUnbudgeted;
    assert Allocation(b', d).Allocated? by {
      SameMissing(KINDS, b, b', d);
    }
    var i, _ := Places(b, s, s);
    ClosedForm(b, d, i);
    ClosedForm(b', d, i);
  }

  lemma {:induction false} SameMissing(kinds: seq<Kind>, b: ContextBudget, b': ContextBudget, d: Demand)
    requires forall k :: b.Budgets(k) <==> b'.Budgets(k)
    ensures FirstUnbudgeted(kinds, b, d) == FirstUnbudgeted(kinds, b', d)
  {
    if kinds != [] {
      SameMissing(kinds[1..], b, b', d);
    }
  }

  /** The order in which distinct sections are listed does not matter. */
  lemma {:induction false} ListingOrderIrrelevant(b: ContextBudget, b': ContextBudget, d: Demand)
    requires b.Available() == b'.Available() && OneEach(b.sections)
    requires multiset(b.sections) == multiset(b'.sections)
    ensures Allocation(b, d) == Allocation(b', d)
  {
    hide ByPriority, Floors, TopUp, FirstUnbudgeted;
    SameElements(b.sections, b'.sections);
    EachStillOnce(b.sections, b'.sections);
    forall k
      ensures b.Budgets(k) <==> b'.Budgets(k)
    {
      SameKinds(b, b', k);
      SameKinds(b', b, k);
    }
    SameMissing(KINDS, b, b', d);
    SaturatedFloors(b.sections, d);
    SaturatedFloors(b'.sections, d);
    SameFloors(b.sections, b'.sections, d);
    Sorts(b.sections);
    Sorts(b'.sections);
    OrderOfEach(b.sections);
    SortedOnce(ByPriority(b.sections), ByPriority(b'.sections));
  }

  lemma {:induction false} SameKinds(b: ContextBudget, b': ContextBudget, k: Kind)
    requires forall s :: s in b.sections ==> s in b'.sections
    ensures b.Budgets(k) ==> b'.Budgets(k)
  {
    if b.Budgets(k) {
      var i :| 0 <= i < |b.sections| && b.sections[i].kind == k;
      assert b.sections[i] in b'.sections;
    }
  }

  lemma {:induction false} EachStillOnce(a: seq<Section>, b: seq<Section>)
    requires OneEach(a) && multiset(a) == multiset(b)
    ensures OneEach(b)
  {
    SameElements(a, b);
    forall i, j | 0 <= i < j < |b|
      ensures b[i].kind != b[j].kind
    {
      EachOnce(a, b[i]);
      TwiceIn(b, i, j);
      assert b[i] != b[j];
      assert b[i] in b && b[j] in b;
      var m :| 0 <= m < |a| && a[m] == b[i];
      var n :| 0 <= n < |a| && a[n] == b[j];
      if m < n {
        assert a[m].kind != a[n].kind;
      } else {
        assert a[n].kind != a[m].kind;
      }
    }
  }

  lemma {:induction false} SameFloors(a: seq<Section>, b: seq<Section>, d: Demand)
    requires OneEach(a) && OneEach(b) && multiset(a) == multiset(b)
    ensures Floors(a, d) == Floors(b, d) && TrueFloors(a, d) == TrueFloors(b, d)
  {
    hide Floors;
    SameElements(a, b);
    FloorsFrom(a, b, d);
    FloorsFrom(b, a, d);
    assert Floors(a, d).Keys == Floors(b, d).Keys;
    TotalOfFloors(a, d);
    TotalOfFloors(b, d);
  }

  lemma {:induction false} FloorsFrom(a: seq<Section>, b: seq<Section>, d: Demand)
    requires OneEach(a) && OneEach(b) && forall s :: s in a <==> s in b
    ensures forall k :: k in Floors(a, d) ==> k in Floors(b, d) && Floors(a, d)[k] == Floors(b, d)[k]
  {
    forall k | k in Floors(a, d)
      ensures k in Floors(b, d) && Floors(a, d)[k] == Floors(b, d)[k]
    {
      var i :| 0 <= i < |a| && a[i].kind == k;
      assert a[i] in b;
      var j :| 0 <= j < |b| && b[j] == a[i];
      FloorsHold(a, d, i);
      FloorsHold(b, d, j);
    }
  }

  /** Distinct sections can be sorted in one way only. */
  lemma {:induction false} SortedOnce(a: seq<Section>, b: seq<Section>)
    requires Ordered(a) && Ordered(b) && OneEach(a) && multiset(a) == multiset(b)
    ensures a == b
  {
    hide Ordered, OneEach;
    SameElements(a, b);
    if a != [] {
      SameFirst(a, b);
      assert a == [a[0]] + a[1..] && b == [b[0]] + b[1..];
      assert multiset(a[1..]) == multiset(a) - multiset{a[0]};
      assert multiset(b[1..]) == multiset(b) - multiset{b[0]};
      TailSorted(a);
      TailSorted(b);
      SortedOnce(a[1..], b[1..]);
    }
  }

  lemma {:induction false} TailSorted(a: seq<Section>)
    requires a != [] && Ordered(a)
    ensures Ordered(a[1..]) && (OneEach(a) ==> OneEach(a[1..]))
  {
    var tail := a[1..];
    assert forall i :: 0 <= i < |tail| ==> tail[i] == a[i + 1];
  }

  lemma {:induction false} SameFirst(a: seq<Section>, b: seq<Section>)
    requires Ordered(a) && Ordered(b) && OneEach(a) && a != [] && |a| == |b| && forall s :: s in a <==> s in b
    ensures a[0] == b[0]
  {
    assert a[0] in b && b[0] in a;
    var i :| 0 <= i < |b| && b[i] == a[0];
    var j :| 0 <= j < |a| && a[j] == b[0];
    if j > 0 && i > 0 {
      assert Before(b[0], b[i]) && Before(a[0], a[j]);
      RankedOnce(a[0].kind, a[j].kind);
      assert false;
    }
  }

  lemma {:induction false} RankedOnce(a: Kind, b: Kind)
    ensures a.Rank() == b.Rank() ==> a == b
  {
  }

  // ---------------------------------------------------------------- the default budget

  function Percent(body: nat, n: nat): nat {
    Max(body * n / 100, 1)
  }

  function Reserve(total: Usize): Usize {
    Min(Max(total / 8, 256), total)
  }

  /** What the default percentages are of. */
  function Body(total: Usize): nat {
    Max(Over(total, Reserve(total)), 1)
  }

  /** The percentages of the default shape. */
  const SHARES: seq<nat> := [6, 12, 6, 15, 15, 30, 10, 20, 25, 55, 35, 70, 8, 20]

  /** One of the products the default shape computes does not fit a machine word. */
  predicate Overflows(total: Usize) {
    exists i :: 0 <= i < |SHARES| && Body(total) * SHARES[i] > USIZE_MAX
  }

  /** The largest total whose default shape can be computed. */
  const LARGEST_DEFAULT: nat := 301_171_331_815_666_148

  lemma {:induction false} OverflowsIff(total: Usize)
    ensures Overflows(total) <==> total > LARGEST_DEFAULT
  {
    assert SHARES[11] == 70;
    if Body(total) * 70 > USIZE_MAX {
      assert Body(total) * SHARES[11] > USIZE_MAX;
    } else {
      forall i | 0 <= i < |SHARES|
        ensures Body(total) * SHARES[i] <= USIZE_MAX
      {
        assert SHARES[i] <= 70;
      }
    }
  }

  /** The default shape, for totals whose percentages do not overflow. */
  function DefaultBudget(total: Usize): (b: ContextBudget)
    requires !Overflows(total)
  {
    var body := Body(total);
    PercentFits(total);
    ContextBudget(total, Reserve(total),
      [Section(Policy, 1, Percent(body, 6), Percent(body, 12), 250),
       Section(Task, 1, Percent(body, 6), Percent(body, 15), 240),
       Section(Instructions, 0, Percent(body, 15), Percent(body, 30), 200),
       Section(Memory, 0, Percent(body, 10), Percent(body, 20), 150),
       Section(Evidence, 0, Percent(body, 25), Percent(body, 55), 120),
       Section(Repository, 0, Percent(body, 35), Percent(body, 70), 100),
       Section(History, 0, Percent(body, 8), Percent(body, 20), 60)])
  }

  /** For example, of eight thousand tokens a thousand are kept for the output, and the rest is shared so. */
  lemma {:induction false} DefaultOfEightThousand()
    ensures !Overflows(8000)
    ensures DefaultBudget(8000) == ContextBudget(8000, 1000,
      [Section(Policy, 1, 420, 840, 250), Section(Task, 1, 420, 1050, 240), Section(Instructions, 0, 1050, 2100, 200),
       Section(Memory, 0, 700, 1400, 150), Section(Evidence, 0, 1750, 3850, 120), Section(Repository, 0, 2450, 4900, 100),
       Section(History, 0, 560, 1400, 60)])
  {
    OverflowsIff(8000);
  }

  lemma {:induction false} PercentFits(total: Usize)
    requires !Overflows(total)
    ensures forall n :: 0 <= n <= 70 ==> Percent(Body(total), n) <= USIZE_MAX
  {
    var body := Body(total);
    assert body * SHARES[11] <= USIZE_MAX;
    forall n | 0 <= n <= 70
      ensures body * n / 100 <= USIZE_MAX
    {
      assert body * n <= body * 70;
    }
  }

  /** The default budget is well formed, knows every kind once, and from 258 tokens on serves every
      demand. */
  lemma {:induction false} DefaultAlwaysServes(total: Usize, d: Demand)
    requires !Overflows(total)
    ensures var b := DefaultBudget(total);
      && OneEach(b.sections) && (forall i :: 0 <= i < |b.sections| ==> b.sections[i].WellFormed())
      && (Allocation(b, d).Allocated? <==> TrueFloors(b.sections, d) <= b.Available())
      && TrueFloors(b.sections, d) == Min(1, Want(d, Policy)) + Min(1, Want(d, Task))
      && (total >= 258 ==> Allocation(b, d).Allocated?)
  {
    hide Percent, Allocation, TrueFloors, Floor;
    var b := DefaultBudget(total);
    DefaultShape(total);
    DefaultFloors(b.sections, d);
    SucceedsIff(b, d);
    forall k
      ensures b.Budgets(k)
    {
      assert b.sections[0].kind == Policy && b.sections[1].kind == Task && b.sections[2].kind == Instructions
             && b.sections[3].kind == Memory && b.sections[4].kind == Evidence && b.sections[5].kind == Repository
             && b.sections[6].kind == History;
    }
  }

  lemma {:induction false} DefaultShape(total: Usize)
    requires !Overflows(total)
    ensures var s := DefaultBudget(total).sections;
      && OneEach(s) && |s| == 7 && s[0].kind == Policy && s[0].min == 1 && s[1].kind == Task && s[1].min == 1
      && (forall i :: 2 <= i < 7 ==> s[i].min == 0)
      && (forall i :: 0 <= i < 7 ==> s[i].WellFormed())
  {
    hide Percent;
    var body := Body(total);
    PercentGrows(body, 6, 12);
    PercentGrows(body, 6, 15);
    PercentGrows(body, 15, 30);
    PercentGrows(body, 10, 20);
    PercentGrows(body, 25, 55);
    PercentGrows(body, 35, 70);
    PercentGrows(body, 8, 20);
  }

  lemma {:induction false} PercentGrows(body: nat, m: nat, n: nat)
    requires m <= n
    ensures 1 <= Percent(body, m) <= Percent(body, n)
  {
    assert body * m <= body * n;
  }

  lemma {:induction false} DefaultFloors(s: seq<Section>, d: Demand)
    requires |s| == 7 && s[0].kind == Policy && s[0].min == 1 && s[1].kind == Task && s[1].min == 1
    requires forall i :: 2 <= i < 7 ==> s[i].min == 0
    ensures TrueFloors(s, d) == Min(1, Want(d, Policy)) + Min(1, Want(d, Task))
  {
    FloorsOfFree(s, d, 7);
    assert s[..7] == s;
    assert s[..2][..1] == s[..1] && s[..1][..0] == [];
    assert TrueFloors(s[..1], d) == Floor(s[0], d);
  }

  lemma {:induction false} FloorsOfFree(s: seq<Section>, d: Demand, n: nat)
    requires 2 <= n <= |s| && forall i :: 2 <= i < n ==> s[i].min == 0
    ensures TrueFloors(s[..n], d) == TrueFloors(s[..2], d)
  {
    if n > 2 {
      assert s[..n][..n - 1] == s[..n - 1];
      FloorsOfFree(s, d, n - 1);
    }
  }
}
