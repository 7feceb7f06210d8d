/** The crate-layering check: a depth-first search over mutable marks and a mutable stack. */
module Layering {
  import opened Options

  type Name = string
  type Layer = n: nat | n < 256

  datatype Crate = Crate(layer: Layer, deps: seq<Name>)

  /** The workspace, as an ordered map: `order` lists its keys. */
  datatype Workspace = Workspace(crates: map<Name, Crate>, order: seq<Name>) {
    ghost predicate Valid() {
      && (forall n :: n in order <==> n in crates)
      && (forall i, j :: 0 <= i < j < |order| ==> order[i] != order[j])
    }

    /** `a` lists `b`, and both are crates of the workspace. */
    predicate Edge(a: Name, b: Name) {
      a in crates && b in crates && b in crates[a].deps
    }

    predicate InLayer(n: Name, l: Layer) {
      n in crates && crates[n].layer == l
    }

    predicate LevelEdge(l: Layer, a: Name, b: Name) {
      Edge(a, b) && InLayer(a, l) && InLayer(b, l)
    }

    predicate Upward(a: Name, b: Name) {
      Edge(a, b) && crates[b].layer > crates[a].layer
    }
  }

  /** A walk along dependencies. */
  ghost predicate Walk(w: Workspace, path: seq<Name>) {
    forall i :: 0 <= i < |path| - 1 ==> w.Edge(path[i], path[i + 1])
  }

  ghost predicate Cycle(w: Workspace, path: seq<Name>) {
    |path| >= 2 && Walk(w, path) && path[0] == path[|path| - 1]
  }

  ghost predicate Within(w: Workspace, l: Layer, path: seq<Name>) {
    forall n :: n in path ==> w.InLayer(n, l)
  }

  /** A crate that lists itself is a cycle, and so are two that list each other. */
  lemma {:induction false} ShortestCycles(w: Workspace, a: Name, b: Name)
    requires a in w.crates && b in w.crates
    ensures a in w.crates[a].deps ==> Cycle(w, [a, a])
    ensures b in w.crates[a].deps && a in w.crates[b].deps ==> Cycle(w, [a, b, a])
  {
  }

  /** And every step of a cycle is a listed dependency between crates of the workspace. */
  lemma {:induction false} CycleIsListed(w: Workspace, path: seq<Name>, i: nat)
    requires Cycle(w, path) && i + 1 < |path|
    ensures path[i] in w.crates && path[i + 1] in w.crates && path[i + 1] in w.crates[path[i]].deps
  {
    assert w.Edge(path[i], path[i + 1]);
  }

  /** What the search reports: a walk inside one layer whose last crate occurs earlier in it. */
  ghost predicate Looped(w: Workspace, l: Layer, path: seq<Name>) {
    && Walk(w, path) && Within(w, l, path)
    && exists k :: 0 <= k < |path| - 1 && path[k] == path[|path| - 1]
  }

  ghost predicate HasCycleIn(w: Workspace, l: Layer) {
    exists path :: Cycle(w, path) && Within(w, l, path)
  }

  // ---------------------------------------------------------------- why a finished search proves there is none

  /** Every same-layer dependency of a crate in `finished` comes before it. */
  ghost predicate DepsFirst(w: Workspace, l: Layer, finished: seq<Name>) {
    forall i, d :: 0 <= i < |finished| && w.LevelEdge(l, finished[i], d) ==> d in finished[..i]
  }

  /** From `finished[i]`, no walk inside the layer comes back to a crate at or after `i`. */
  lemma {:induction false} WalksGoDown(w: Workspace, l: Layer, finished: seq<Name>, path: seq<Name>, i: nat)
    requires DepsFirst(w, l, finished)
    requires |path| >= 2 && Walk(w, path) && Within(w, l, path)
    requires i < |finished| && finished[i] == path[0]
    ensures path[|path| - 1] in finished[..i]
    decreases |path|
  {
    assert w.LevelEdge(l, path[0], path[1]);
    var j :| 0 <= j < i && finished[j] == path[1];
    if |path| > 2 {
      var rest := path[1..];
      WalksGoDown(w, l, finished, rest, j);
      assert rest[|rest| - 1] == path[|path| - 1];
    }
  }

  /** A crate's first place in `finished`. */
  lemma {:induction false} FirstPlace(finished: seq<Name>, n: Name) returns (i: nat)
    requires n in finished
    ensures i < |finished| && finished[i] == n && n !in finished[..i]
  {
    i := 0;
    while finished[i] != n
      invariant i < |finished| && n in finished[i..] && n !in finished[..i]
      decreases |finished| - i
    {
      i := i + 1;
    }
  }

  lemma {:induction false} NoCycleWithin(w: Workspace, l: Layer, finished: seq<Name>, path: seq<Name>)
    requires DepsFirst(w, l, finished)
    requires forall n :: w.InLayer(n, l) ==> n in finished
    ensures !(Cycle(w, path) && Within(w, l, path))
  {
    if Cycle(w, path) && Within(w, l, path) {
      assert w.InLayer(path[0], l);
      var i := FirstPlace(finished, path[0]);
      WalksGoDown(w, l, finished, path, i);
    }
  }

  /** Without upward edges, layers never rise along a walk; so a cycle stays in one layer. */
  lemma {:induction false} LayersFall(w: Workspace, path: seq<Name>, i: nat, k: nat)
    requires forall a, b :: w.Edge(a, b) ==> !w.Upward(a, b)
    requires Walk(w, path) && |path| >= 2 && i <= k < |path|
    ensures path[i] in w.crates && path[k] in w.crates
    ensures w.crates[path[k]].layer <= w.crates[path[i]].layer
  {
    assert w.Edge(path[if k > 0 then k - 1 else k], path[if k > 0 then k else 1]);
    if i < k {
      LayersFall(w, path, i, k - 1);
      assert w.Edge(path[k - 1], path[k]);
    }
  }

  lemma {:induction false} CycleStaysInLayer(w: Workspace, path: seq<Name>)
    requires forall a, b :: w.Edge(a, b) ==> !w.Upward(a, b)
    requires Cycle(w, path)
    ensures path[0] in w.crates && Within(w, w.crates[path[0]].layer, path)
  {
    forall n | n in path
      ensures n in w.crates && path[0] in w.crates && w.crates[n].layer == w.crates[path[0]].layer
    {
      var i :| 0 <= i < |path| && path[i] == n;
      LayersFall(w, path, 0, i);
      LayersFall(w, path, i, |path| - 1);
    }
  }

  lemma {:induction false} LoopHoldsCycle(w: Workspace, l: Layer, path: seq<Name>) returns (cycle: seq<Name>)
    requires Looped(w, l, path)
    ensures Cycle(w, cycle) && Within(w, l, cycle)
  {
    var k :| 0 <= k < |path| - 1 && path[k] == path[|path| - 1];
    cycle := path[k..];
    assert forall n :: n in cycle ==> n in path;
  }

  // ---------------------------------------------------------------- the search

  datatype Mark = Unvisited | InProgress | Done

  class CycleSearch {
    const workspace: Workspace
    const layer: Layer
    var marks: map<Name, Mark>
    var stack: seq<Name>
    /** The crates marked done, in that order. */
    ghost var finished: seq<Name>

    ghost predicate Valid()
      reads this
    {
      && (forall n :: n in marks <==> workspace.InLayer(n, layer))
      && (forall n :: n in stack <==> n in marks && marks[n].InProgress?)
      && Walk(workspace, stack)
      && (forall n :: n in finished <==> n in marks && marks[n].Done?)
      && DepsFirst(workspace, layer, finished)
    }

    function Unvisited(): set<Name>
      reads this
    {
      set n | n in marks && marks[n].Unvisited?
    }

    constructor (w: Workspace, l: Layer, names: seq<Name>)
      requires forall n :: n in names <==> w.InLayer(n, l)
      ensures Valid() && workspace == w && layer == l && stack == []
    {
      workspace, layer := w, l;
      marks := map n | n in names :: Mark.Unvisited;
      stack, finished := [], [];
    }

    /** Visit a crate reached from the top of the stack. Each call that goes on turns one unvisited
        crate in-progress. */
    method Visit(node: Name) returns (cycle: Option<seq<Name>>)
      requires Valid() && node in marks
      requires stack != [] ==> workspace.Edge(stack[|stack| - 1], node)
      modifies this
      ensures cycle.Some? ==> Looped(workspace, layer, cycle.value)
      ensures cycle.None? ==> Valid() && stack == old(stack) && node in finished
      ensures cycle.None? ==> old(finished) <= finished && Unvisited() <= old(Unvisited())
      decreases Unvisited()
    {
      match marks[node]
      case InProgress =>
        ghost var k :| 0 <= k < |stack| && stack[k] == node;
        stack := stack + [node];
        assert stack[k] == stack[|stack| - 1];
        return Some(stack);
      case Done =>
        return None;
      case Unvisited =>
      Enter(node);
      var deps := workspace.crates[node].deps;
      for i := 0 to |deps|
        invariant Valid() && stack == old(stack) + [node]
        invariant old(finished) <= finished && Unvisited() < old(Unvisited())
        invariant forall k :: 0 <= k < i && workspace.InLayer(deps[k], layer) ==> deps[k] in finished
      {
        var dep := deps[i];
        if dep in workspace.crates && workspace.crates[dep].layer == layer {
          assert workspace.Edge(node, dep);
          cycle := Visit(dep);
          if cycle.Some? {
            return;
          }
        }
      }
      Leave(node);
      cycle := None;
    }

    method Enter(node: Name)
      requires Valid() && node in Unvisited()
      requires stack != [] ==> workspace.Edge(stack[|stack| - 1], node)
      modifies this`marks, this`stack
      ensures Valid() && stack == old(stack) + [node] && node !in old(stack)
      ensures Unvisited() == old(Unvisited()) - {node}
    {
      hide DepsFirst;
      marks := marks[node := InProgress];
      stack := stack + [node];
    }

    method Leave(node: Name)
      requires Valid() && stack != [] && stack[|stack| - 1] == node && node !in stack[..|stack| - 1]
      requires forall d :: workspace.LevelEdge(layer, node, d) ==> d in finished
      modifies this
      ensures Valid() && stack == old(stack[..|stack| - 1]) && finished == old(finished) + [node]
      ensures Unvisited() == old(Unvisited())
    {
      hide DepsFirst;
      FinishOne(workspace, layer, finished, node);
      assert stack == stack[..|stack| - 1] + [node];
      stack := stack[..|stack| - 1];
      marks := marks[node := Done];
      finished := finished + [node];
    }
  }

  lemma {:induction false} FinishOne(w: Workspace, l: Layer, finished: seq<Name>, node: Name)
    requires DepsFirst(w, l, finished)
    requires forall d :: w.LevelEdge(l, node, d) ==> d in finished
    ensures DepsFirst(w, l, finished + [node])
  {
    var finished' := finished + [node];
    forall i, d | 0 <= i < |finished'| && w.LevelEdge(l, finished'[i], d)
      ensures d in finished'[..i]
    {
      if i < |finished| {
        assert finished'[..i] == finished[..i];
      } else {
        assert finished'[..i] == finished;
      }
    }
  }

  /** Search one layer. A cycle is reported if and only if there is one. */
  method FindCycle(names: seq<Name>, w: Workspace, l: Layer) returns (cycle: Option<seq<Name>>)
    requires forall n :: n in names <==> w.InLayer(n, l)
    ensures cycle.Some? ==> Looped(w, l, cycle.value)
    ensures cycle.Some? <==> HasCycleIn(w, l)
  {
    var search := new CycleSearch(w, l, names);
    for i := 0 to |names|
      invariant fresh(search) && search.workspace == w && search.layer == l
      invariant search.Valid() && search.stack == []
      invariant forall k :: 0 <= k < i ==> names[k] in search.finished
    {
      cycle := search.Visit(names[i]);
      if cycle.Some? {
        var found := LoopHoldsCycle(w, l, cycle.value);
        return;
      }
    }
    cycle := None;
    forall path
      ensures !(Cycle(w, path) && Within(w, l, path))
    {
      NoCycleWithin(w, l, search.finished, path);
    }
  }

  // ---------------------------------------------------------------- the check

  datatype Violation =
    | DependsUpward(crate: Name, crateLayer: Layer, dep: Name, depLayer: Layer)
    | CycleInLayer(layer: Layer, path: seq<Name>)

  /** The crates of layer `l`, in order. */
  function LayerOf(w: Workspace, order: seq<Name>, l: Layer): (names: seq<Name>)
    ensures forall n :: n in names <==> n in order && w.InLayer(n, l)
  {
    if order == [] then []
    else LayerOf(w, order[..|order| - 1], l)
         + (if w.InLayer(order[|order| - 1], l) then [order[|order| - 1]] else [])
  }

  method GroupByLayer(w: Workspace) returns (byLayer: map<Layer, seq<Name>>)
    requires w.Valid()
    ensures forall l :: l in byLayer <==> exists n :: w.InLayer(n, l)
    ensures forall l :: l in byLayer ==> byLayer[l] == LayerOf(w, w.order, l)
  {
    byLayer := map[];
    for i := 0 to |w.order|
      invariant forall l :: l in byLayer <==> LayerOf(w, w.order[..i], l) != []
      invariant forall l :: l in byLayer ==> byLayer[l] == LayerOf(w, w.order[..i], l)
    {
      assert w.order[..i + 1][..i] == w.order[..i];
      var name := w.order[i];
      var l := w.crates[name].layer;
      byLayer := byLayer[l := (if l in byLayer then byLayer[l] else []) + [name]];
    }
    assert w.order[..|w.order|] == w.order;
    forall l
      ensures LayerOf(w, w.order, l) != [] <==> exists n :: w.InLayer(n, l)
    {
      if LayerOf(w, w.order, l) != [] {
        assert w.InLayer(LayerOf(w, w.order, l)[0], l);
      }
      if n :| w.InLayer(n, l) {
        assert n in LayerOf(w, w.order, l);
      }
    }
  }

  /** `v` reports an upward dependency of the workspace. */
  ghost predicate ReportsUpward(w: Workspace, v: Violation) {
    && v.DependsUpward? && w.Upward(v.crate, v.dep)
    && v.crateLayer == w.crates[v.crate].layer && v.depLayer == w.crates[v.dep].layer
  }

  /** How often `v` is to be reported: once for every time the crate lists the dependency. */
  ghost function Times(w: Workspace, v: Violation): nat {
    if ReportsUpward(w, v) then multiset(w.crates[v.crate].deps)[v.dep] else 0
  }

  method FindUpward(w: Workspace) returns (violations: seq<Violation>)
    requires w.Valid()
    ensures forall v :: multiset(violations)[v] == Times(w, v)
    ensures forall v :: v in violations <==> ReportsUpward(w, v)
  {
    hide ReportsUpward;
    violations := [];
    for i := 0 to |w.order|
      invariant forall v :: multiset(violations)[v] == if v.DependsUpward? && v.crate in w.order[..i] then Times(w, v) else 0
    {
      var name := w.order[i];
      var found := UpwardDeps(w, name);
      violations := violations + found;
      assert w.order[..i + 1] == w.order[..i] + [name];
      assert name !in w.order[..i];
    }
    assert w.order[..|w.order|] == w.order;
    forall v
      ensures multiset(violations)[v] == Times(w, v)
      ensures v in violations <==> ReportsUpward(w, v)
    {
      ReportedAtAll(w, v);
      assert v in violations <==> v in multiset(violations);
    }
  }

  lemma {:induction false} ReportedAtAll(w: Workspace, v: Violation)
    requires w.Valid()
    ensures Times(w, v) > 0 <==> ReportsUpward(w, v)
    ensures ReportsUpward(w, v) ==> v.DependsUpward? && v.crate in w.order
  {
    if ReportsUpward(w, v) {
      assert v.dep in w.crates[v.crate].deps;
    }
  }

  method UpwardDeps(w: Workspace, name: Name) returns (violations: seq<Violation>)
    requires name in w.crates
    ensures forall v :: multiset(violations)[v] == if v.DependsUpward? && v.crate == name then Times(w, v) else 0
  {
    violations := [];
    var deps := w.crates[name].deps;
    for i := 0 to |deps|
      invariant forall v :: multiset(violations)[v] ==
                  if ReportsUpward(w, v) && v.crate == name then multiset(deps[..i])[v.dep] else 0
    {
      assert deps[..i + 1] == deps[..i] + [deps[i]];
      if deps[i] in w.crates && w.crates[deps[i]].layer > w.crates[name].layer {
        violations := violations + [DependsUpward(name, w.crates[name].layer, deps[i], w.crates[deps[i]].layer)];
      }
    }
    assert deps[..|deps|] == deps;
  }

  /** At most one cycle a layer, the lower layers first. */
  ghost predicate Rising(cycles: seq<Violation>) {
    forall i, j :: 0 <= i < j < |cycles| && cycles[i].CycleInLayer? && cycles[j].CycleInLayer? ==> cycles[i].layer < cycles[j].layer
  }

  /** Search every layer. */
  method FindCycles(w: Workspace) returns (cycles: seq<Violation>)
    requires w.Valid()
    ensures forall v :: v in cycles ==> v.CycleInLayer? && Looped(w, v.layer, v.path)
    ensures forall l :: HasCycleIn(w, l) ==> exists v :: v in cycles && v.CycleInLayer? && v.layer == l
    ensures Rising(cycles)
  {
    hide Looped, HasCycleIn;
    cycles := [];
    var byLayer := GroupByLayer(w);
    var l: nat := 0;
    while l < 256
      invariant l <= 256
      invariant forall v :: v in cycles ==> v.CycleInLayer? && Looped(w, v.layer, v.path)
      invariant forall k: Layer :: k < l && HasCycleIn(w, k) ==> exists v :: v in cycles && v.CycleInLayer? && v.layer == k
      invariant Rising(cycles) && forall v :: v in cycles ==> v.layer < l
    {
      if l in byLayer {
        var cycle := FindCycle(byLayer[l], w, l);
        if cycle.Some? {
          var v := CycleInLayer(l, cycle.value);
          cycles := cycles + [v];
          assert v in cycles;
        }
      } else {
        NoCrateNoCycle(w, l);
      }
      l := l + 1;
    }
  }

  lemma {:induction false} NoCrateNoCycle(w: Workspace, l: Layer)
    requires forall n :: !w.InLayer(n, l)
    ensures !HasCycleIn(w, l)
  {
    forall path
      ensures !(Cycle(w, path) && Within(w, l, path))
    {
      if path != [] {
        assert path[0] in path;
      }
    }
  }

  /** The whole check. It reports nothing if and only if every internal dependency goes to the same or a
      lower layer and the whole internal graph has no directed cycle. */
  method FindViolations(w: Workspace) returns (violations: seq<Violation>)
    requires w.Valid()
    ensures forall v :: v in violations && v.DependsUpward? <==> ReportsUpward(w, v)
    ensures forall v: Violation :: v.DependsUpward? ==> multiset(violations)[v] == Times(w, v)
    ensures Rising(violations)
    ensures forall i, j :: 0 <= i < j < |violations| && violations[i].CycleInLayer? ==> violations[j].CycleInLayer?
    ensures forall v :: v in violations && v.CycleInLayer? ==> Looped(w, v.layer, v.path)
    ensures forall l :: HasCycleIn(w, l) <==> exists v :: v in violations && v.CycleInLayer? && v.layer == l
    ensures violations == [] <==>
      (forall a, b :: w.Edge(a, b) ==> w.crates[b].layer <= w.crates[a].layer) && !exists path :: Cycle(w, path)
  {
    hide ReportsUpward, Looped, HasCycleIn, Rising, Times, Walk;
    var upward := FindUpward(w);
    var cycles := FindCycles(w);
    violations := upward + cycles;
    PutTogether(w, upward, cycles);
    forall v | v in cycles
      ensures HasCycleIn(w, v.layer)
    {
      LoopIsCycle(w, v.layer, v.path);
    }
    if violations == [] {
      NothingReported(w);
    } else {
      SomethingReported(w, violations[0]);
    }
  }

  lemma {:induction false} LoopIsCycle(w: Workspace, l: Layer, path: seq<Name>)
    requires Looped(w, l, path)
    ensures HasCycleIn(w, l)
  {
    var _ := LoopHoldsCycle(w, l, path);
  }

  /** The upward dependencies first, then the cycles. */
  lemma {:induction false} PutTogether(w: Workspace, upward: seq<Violation>, cycles: seq<Violation>)
    requires forall v :: v in upward <==> ReportsUpward(w, v)
    requires forall v :: multiset(upward)[v] == Times(w, v)
    requires Rising(cycles) && forall v :: v in cycles ==> v.CycleInLayer?
    ensures Rising(upward + cycles)
    ensures forall v: Violation :: v.DependsUpward? ==> multiset(upward + cycles)[v] == Times(w, v)
    ensures forall i, j :: 0 <= i < j < |upward + cycles| && (upward + cycles)[i].CycleInLayer? ==> (upward + cycles)[j].CycleInLayer?
    ensures forall v :: v in upward + cycles ==> if v.DependsUpward? then v in upward else v in cycles
    ensures forall v :: v in upward ==> v.DependsUpward?
  {
    hide Times;
    assert forall v :: v in upward ==> v.DependsUpward?;
    var all := upward + cycles;
    assert forall i :: 0 <= i < |all| ==> if i < |upward| then all[i] in upward else all[i] == cycles[i - |upward|];
    assert forall i :: 0 <= i < |cycles| ==> cycles[i] in cycles;
    forall v: Violation | v.DependsUpward?
      ensures multiset(upward + cycles)[v] == Times(w, v)
    {
      assert v !in cycles;
      assert multiset(cycles)[v] == 0;
    }
  }

  lemma {:induction false} NothingReported(w: Workspace)
    requires forall v :: !ReportsUpward(w, v)
    requires forall l :: !HasCycleIn(w, l)
    ensures forall a, b :: w.Edge(a, b) ==> w.crates[b].layer <= w.crates[a].layer
    ensures !exists path :: Cycle(w, path)
  {
    forall a, b | w.Edge(a, b)
      ensures w.crates[b].layer <= w.crates[a].layer
    {
      assert !ReportsUpward(w, DependsUpward(a, w.crates[a].layer, b, w.crates[b].layer));
    }
    if path :| Cycle(w, path) {
      CycleStaysInLayer(w, path);
      assert HasCycleIn(w, w.crates[path[0]].layer);
    }
  }

  lemma {:induction false} SomethingReported(w: Workspace, v: Violation)
    requires ReportsUpward(w, v) || (v.CycleInLayer? && Looped(w, v.layer, v.path))
    ensures (exists a, b :: w.Edge(a, b) && w.crates[b].layer > w.crates[a].layer) || exists path :: Cycle(w, path)
  {
    if v.CycleInLayer? {
      var _ := LoopHoldsCycle(w, v.layer, v.path);
    } else {
      assert w.Edge(v.crate, v.dep);
    }
  }
}
