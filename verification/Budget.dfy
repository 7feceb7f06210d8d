/** The context budget: how the tokens of a prompt are shared among its sections. The allocator is a
    method with the source's loops over a mutable map; `Allocation` is the function it computes. */
module Budget {
  import opened Options
  import opened Sequences

  datatype Kind = Policy | Instructions | Memory | Task | Repository | Evidence | History {
    function Rank(): nat {
      match this
      case Policy => 0
      case Instructions => 1
      case Memory => 2
      case Task => 3
      case Repository => 4
      case Evidence => 5
      case History => 6
    }
  }

  const KINDS: seq<Kind> := [Policy, Instructions, Memory, Task, Repository, Evidence, History]

  const USIZE_MAX: nat := 0xFFFF_FFFF_FFFF_FFFF
  type Usize = n: nat | n <= USIZE_MAX

  datatype Section = Section(kind: Kind, min: Usize, ideal: Usize, max: Usize, priority: nat) {
    predicate WellFormed() {
      min <= ideal <= max
    }
  }

  datatype ContextBudget = ContextBudget(totalTokens: Usize, reserveForOutput: Usize, sections: seq<Section>) {
    function Available(): Usize {
      Over(totalTokens, reserveForOutput)
    }

    predicate Budgets(k: Kind) {
      exists i :: 0 <= i < |sections| && sections[i].kind == k
    }
  }

  type Demand = map<Kind, Usize>

  datatype Outcome =
    | Allocated(available: nat, perSection: map<Kind, nat>)
    | Unbudgeted(kind: Kind)
    | Infeasible(needed: nat, available: nat)

  // ---------------------------------------------------------------- arithmetic

  function Min(a: nat, b: nat): nat {
    if a <= b then a else b
  }

  function Max(a: nat, b: nat): nat {
    if a <= b then b else a
  }

  /** How far `a` exceeds `b`: subtraction that stops at zero. */
  function Over(a: nat, b: nat): nat {
    if a > b then a - b else 0
  }

  function SaturatingAdd(a: nat, b: nat): nat {
    Min(a + b, USIZE_MAX)
  }

  // ---------------------------------------------------------------- what a section asks for

  function Want(d: Demand, k: Kind): nat {
    if k in d then d[k] else 0
  }

  function Floor(s: Section, d: Demand): nat {
    Min(s.min, Want(d, s.kind))
  }

  /** The two targets sections are topped up to, one after the other. */
  datatype Target = Ideal | Most

  function TargetOf(s: Section, t: Target, d: Demand): nat {
    Min(if t.Ideal? then s.ideal else s.max, Want(d, s.kind))
  }

  // ---------------------------------------------------------------- the allocator as a function

  function FirstUnbudgeted(kinds: seq<Kind>, b: ContextBudget, d: Demand): (r: Option<Kind>)
    ensures r == None <==> forall k :: k in kinds && k in d ==> b.Budgets(k)
    ensures r.Some? ==> r.value in kinds && r.value in d && !b.Budgets(r.value)
  {
    if kinds == [] then None
    else if kinds[0] in d && !b.Budgets(kinds[0]) then Some(kinds[0])
    else FirstUnbudgeted(kinds[1..], b, d)
  }

  function Floors(sections: seq<Section>, d: Demand): (alloc: map<Kind, nat>)
    ensures forall k :: k in alloc <==> exists i :: 0 <= i < |sections| && sections[i].kind == k
  {
    if sections == [] then map[]
    else
      var last := sections[|sections| - 1];
      Floors(sections[..|sections| - 1], d)[last.kind := Floor(last, d)]
  }

  /** The sum of the floors, which saturates. */
  function FloorTotal(sections: seq<Section>, d: Demand): nat {
    if sections == [] then 0
    else SaturatingAdd(FloorTotal(sections[..|sections| - 1], d), Floor(sections[|sections| - 1], d))
  }

  /** `a` is topped up before `b`. */
  predicate Before(a: Section, b: Section) {
    a.priority > b.priority || (a.priority == b.priority && a.kind.Rank() <= b.kind.Rank())
  }

  /** The stable sort by priority, ties by kind. */
  function ByPriority(sections: seq<Section>): seq<Section> {
    SortBy(Before, sections)
  }

  datatype Tokens = Tokens(alloc: map<Kind, nat>, remaining: nat)

  function GrantTo(x: Tokens, s: Section, t: Target, d: Demand): Tokens
    requires s.kind in x.alloc
  {
    var grant := Min(Over(TargetOf(s, t, d), x.alloc[s.kind]), x.remaining);
    Tokens(x.alloc[s.kind := x.alloc[s.kind] + grant], x.remaining - grant)
  }

  predicate Covers(alloc: map<Kind, nat>, order: seq<Section>) {
    forall i :: 0 <= i < |order| ==> order[i].kind in alloc
  }

  function TopUp(x: Tokens, order: seq<Section>, t: Target, d: Demand): (y: Tokens)
    requires Covers(x.alloc, order)
    ensures y.alloc.Keys == x.alloc.Keys && y.remaining <= x.remaining
  {
    if order == [] then x
    else
      assert Covers(x.alloc, order[..|order| - 1]);
      GrantTo(TopUp(x, order[..|order| - 1], t, d), order[|order| - 1], t, d)
  }

  /** Both passes over the sections, when the floors fit. */
  function Passes(b: ContextBudget, d: Demand): Tokens
    requires FloorTotal(b.sections, d) <= b.Available()
  {
    OrderCovered(b.sections, d);
    var order := ByPriority(b.sections);
    var x := Tokens(Floors(b.sections, d), b.Available() - FloorTotal(b.sections, d));
    var y := TopUp(x, order, Ideal, d);
    SameCover(x.alloc, y.alloc, order);
    TopUp(y, order, Most, d)
  }

  function Allocation(b: ContextBudget, d: Demand): Outcome {
    var missing := FirstUnbudgeted(KINDS, b, d);
    var needed := FloorTotal(b.sections, d);
    if missing.Some? then Unbudgeted(missing.value)
    else if needed > b.Available() then Infeasible(needed, b.Available())
    else Allocated(b.Available(), Passes(b, d).alloc)
  }

  // ---------------------------------------------------------------- the order of the sections

  ghost predicate Ordered(s: seq<Section>) {
    Sorted(Before, s)
  }

  lemma {:induction false} Sorts(sections: seq<Section>)
    ensures Ordered(ByPriority(sections)) && multiset(ByPriority(sections)) == multiset(sections)
  {
    SortPermutes(Before, sections);
    SortSorts(Before, sections);
  }

  lemma {:induction false} OrderCovered(sections: seq<Section>, d: Demand)
    ensures Covers(Floors(sections, d), ByPriority(sections))
  {
    hide Floors, ByPriority;
    Sorts(sections);
    SameElements(sections, ByPriority(sections));
    var order := ByPriority(sections);
    forall i | 0 <= i < |order|
      ensures order[i].kind in Floors(sections, d)
    {
      assert order[i] in order;
    }
  }

  // ---------------------------------------------------------------- the allocator

  method Allocate(b: ContextBudget, d: Demand) returns (r: Outcome)
    ensures r == Allocation(b, d)
  {
    hide FirstUnbudgeted, Floors, FloorTotal, ByPriority, TopUp, Covers;
    var available := b.Available();
    var missing := FindUnbudgeted(KINDS, b, d);
    if missing.Some? {
      return Unbudgeted(missing.value);
    }
    var alloc, floorTotal := HardFloors(b.sections, d);
    if floorTotal > available {
      return Infeasible(floorTotal, available);
    }
    OrderCovered(b.sections, d);
    var order := ByPriority(b.sections);
    var remaining := available - floorTotal;
    alloc, remaining := TopUpAll(alloc, remaining, order, Ideal, d);
    SameCover(Floors(b.sections, d), alloc, order);
    alloc, remaining := TopUpAll(alloc, remaining, order, Most, d);
    r := Allocated(available, alloc);
  }

  method FindUnbudgeted(kinds: seq<Kind>, b: ContextBudget, d: Demand) returns (missing: Option<Kind>)
    ensures missing == FirstUnbudgeted(kinds, b, d)
  {
    hide ContextBudget.Budgets;
    var i := 0;
    assert kinds[0..] == kinds;
    while i < |kinds|
      invariant 0 <= i <= |kinds|
      invariant FirstUnbudgeted(kinds, b, d) == FirstUnbudgeted(kinds[i..], b, d)
    {
      if kinds[i] in d && !b.Budgets(kinds[i]) {
        return Some(kinds[i]);
      }
      i := i + 1;
    }
    return None;
  }

  method HardFloors(sections: seq<Section>, d: Demand) returns (alloc: map<Kind, nat>, floorTotal: nat)
    ensures alloc == Floors(sections, d) && floorTotal == FloorTotal(sections, d)
  {
    alloc, floorTotal := map[], 0;
    for i := 0 to |sections|
      invariant alloc == Floors(sections[..i], d) && floorTotal == FloorTotal(sections[..i], d)
    {
      assert sections[..i + 1][..i] == sections[..i];
      var spec := sections[i];
      alloc := alloc[spec.kind := Floor(spec, d)];
      floorTotal := SaturatingAdd(floorTotal, Floor(spec, d));
    }
    assert sections[..|sections|] == sections;
  }

  /** Top up toward one target, until the tokens run out. */
  method TopUpAll(alloc0: map<Kind, nat>, remaining0: nat, order: seq<Section>, t: Target, d: Demand)
    returns (alloc: map<Kind, nat>, remaining: nat)
    requires Covers(alloc0, order)
    ensures Tokens(alloc, remaining) == TopUp(Tokens(alloc0, remaining0), order, t, d)
  {
    hide TopUp, TargetOf;
    alloc, remaining := alloc0, remaining0;
    ghost var x := Tokens(alloc0, remaining0);
    var i := 0;
    TopUpNone(x, t, d);
    while i < |order|
      invariant 0 <= i <= |order|
      invariant Tokens(alloc, remaining) == TopUp(x, order[..i], t, d)
    {
      if remaining == 0 {
        NothingLeft(x, order, t, d, i);
        return;
      }
      TopUpOne(x, order, t, d, i);
      var spec := order[i];
      var target, current := TargetOf(spec, t, d), alloc[spec.kind];
      if target > current {
        var grant := Min(target - current, remaining);
        alloc := alloc[spec.kind := current + grant];
        remaining := remaining - grant;
      } else {
        GrantNothing(Tokens(alloc, remaining), spec, t, d);
      }
      i := i + 1;
    }
    assert order[..|order|] == order;
  }

  lemma {:induction false} SameCover(a: map<Kind, nat>, b: map<Kind, nat>, order: seq<Section>)
    requires Covers(a, order) && a.Keys == b.Keys
    ensures Covers(b, order)
  {
    assert forall k :: k in a <==> k in a.Keys;
    assert forall k :: k in b <==> k in b.Keys;
  }

  lemma {:induction false} TopUpNone(x: Tokens, t: Target, d: Demand)
    ensures TopUp(x, [], t, d) == x
  {
  }

  lemma {:induction false} TopUpOne(x: Tokens, order: seq<Section>, t: Target, d: Demand, i: nat)
    requires i < |order| && Covers(x.alloc, order)
    ensures var y := TopUp(x, order[..i], t, d);
      order[i].kind in y.alloc && TopUp(x, order[..i + 1], t, d) == GrantTo(y, order[i], t, d)
  {
    hide GrantTo;
    assert order[..i + 1][..i] == order[..i];
    var y := TopUp(x, order[..i], t, d);
    assert order[i].kind in y.alloc.Keys;
  }

  lemma {:induction false} GrantNothing(x: Tokens, s: Section, t: Target, d: Demand)
    requires s.kind in x.alloc
    requires x.remaining == 0 || TargetOf(s, t, d) <= x.alloc[s.kind]
    ensures GrantTo(x, s, t, d) == x
  {
    assert x.alloc[s.kind := x.alloc[s.kind]] == x.alloc;
  }

  /** Once the tokens are gone the rest of the loop changes nothing. */
  lemma {:induction false} NothingLeft(x: Tokens, order: seq<Section>, t: Target, d: Demand, i: nat)
    requires i <= |order| && Covers(x.alloc, order)
    requires TopUp(x, order[..i], t, d).remaining == 0
    ensures TopUp(x, order, t, d) == TopUp(x, order[..i], t, d)
    decreases |order| - i
  {
    hide TopUp, GrantTo;
    if i == |order| {
      assert order[..i] == order;
    } else {
      TopUpOne(x, order, t, d, i);
      GrantNothing(TopUp(x, order[..i], t, d), order[i], t, d);
      NothingLeft(x, order, t, d, i + 1);
    }
  }
}
