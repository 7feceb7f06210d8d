/** Layered configuration: layers are merged one over the other, key by key, and each leaf's origin is
    recorded under its dotted name as its layer is applied. */
module ConfigMerge {
  import opened Options
  import opened ConfigTree

  type Origin = string

  datatype Layer = Layer(value: Value, source: Origin)

  // ---------------------------------------------------------------- merging as a function

  /** `overlay` wins key by key; two tables under one key are merged. A layer that is not a table is
      ignored. */
  function Merge(base: Value, overlay: Value): Value
    decreases overlay
  {
    if overlay.Leaf? then base
    else
      var below, over := EntriesOf(base), overlay.entries;
      Table(map k | k in below.Keys + over.Keys ::
              if k !in over then below[k]
              else if over[k].Table? && k in below && below[k].Table? then Merge(below[k], over[k])
              else over[k])
  }

  /** The names of all leaves, under a prefix. */
  function LeafNames(v: Value, prefix: string): set<string>
    decreases v
  {
    match v
    case Leaf(_) => {prefix}
    case Table(entries) => set k, n | k in entries && n in LeafNames(entries[k], Child(prefix, k)) :: n
  }

  function Recorded(origins: map<string, Origin>, names: set<string>, source: Origin): map<string, Origin> {
    origins + map n | n in names :: source
  }

  /** The names a layer records: all its leaves', if it is a table. */
  function NamesOf(layer: Value, prefix: string): set<string> {
    if layer.Leaf? then {} else LeafNames(layer, prefix)
  }

  // ---------------------------------------------------------------- the mutable object

  class LayeredConfig {
    var merged: Value
    var origins: map<string, Origin>

    constructor ()
      ensures merged == EMPTY && origins == map[]
    {
      merged, origins := EMPTY, map[];
    }

    method ApplyLayer(layer: Value, source: Origin)
      modifies this
      ensures merged == Merge(old(merged), layer)
      ensures origins == Recorded(old(origins), NamesOf(layer, ""), source)
    {
      merged := MergeInto(merged, layer, source, "");
    }

    /** Merge `overlay` into one table of the document, key by key, in whatever order. */
    method MergeInto(base: Value, overlay: Value, source: Origin, prefix: string) returns (result: Value)
      modifies this`origins
      ensures result == Merge(base, overlay)
      ensures origins == Recorded(old(origins), NamesOf(overlay, prefix), source)
      decreases overlay
    {
      hide Recorded, NamesUnder, LeafNames, MergedKeys, Merge;
      RecordedNone(origins, source);
      if overlay.Leaf? {
        LeafIgnored(base, overlay);
        return base;
      }
      var below := EntriesOf(base);
      var table := below;
      var keys := overlay.entries.Keys;
      ghost var done: set<Key> := {};
      NoneNamed(overlay.entries, prefix);
      NoneMerged(below, overlay.entries);
      while keys != {}
        invariant done + keys == overlay.entries.Keys && done !! keys
        invariant table == MergedKeys(below, overlay.entries, done)
        invariant origins == Recorded(old(origins), NamesUnder(overlay.entries, done, prefix), source)
        decreases |keys|
      {
        var key :| key in keys;
        var value := overlay.entries[key];
        KeyMerged(below, overlay.entries, done, key);
        KeyNamed(overlay.entries, done, key, prefix);
        RecordedTwice(old(origins), NamesUnder(overlay.entries, done, prefix), LeafNames(value, Child(prefix, key)), source);
        if value.Table? && key in table && table[key].Table? {
          var child := MergeInto(table[key], value, source, Child(prefix, key));
          table := table[key := child];
        } else {
          table := table[key := value];
          RecordLeafOrigins(value, source, Child(prefix, key));
        }
        keys := keys - {key};
        done := done + {key};
      }
      AllMerged(base, overlay);
      AllNamed(overlay, prefix);
      assert done == overlay.entries.Keys;
      result := Table(table);
    }

    method RecordLeafOrigins(value: Value, source: Origin, prefix: string)
      modifies this`origins
      ensures origins == Recorded(old(origins), LeafNames(value, prefix), source)
      decreases value
    {
      hide NamesUnder, Recorded, LeafNames;
      match value
      case Leaf(_) =>
        RecordedLeaf(origins, value, prefix, source);
        origins := origins[prefix := source];
      case Table(entries) =>
        var keys := entries.Keys;
        ghost var done: set<Key> := {};
        NoneNamed(entries, prefix);
        RecordedNone(origins, source);
        while keys != {}
          invariant done + keys == entries.Keys && done !! keys
          invariant origins == Recorded(old(origins), NamesUnder(entries, done, prefix), source)
          decreases |keys|
        {
          var key :| key in keys;
          KeyNamed(entries, done, key, prefix);
          RecordedTwice(old(origins), NamesUnder(entries, done, prefix), LeafNames(entries[key], Child(prefix, key)), source);
          RecordLeafOrigins(entries[key], source, Child(prefix, key));
          keys := keys - {key};
          done := done + {key};
        }
        AllNamed(value, prefix);
        assert done == entries.Keys;
    }
  }

  // ---- what a pass over some of the keys comes to

  /** The table after the keys in `done` were merged in. */
  function MergedKeys(below: map<Key, Value>, over: map<Key, Value>, done: set<Key>): map<Key, Value>
    requires done <= over.Keys
  {
    map k | k in below.Keys + done ::
      if k !in done then below[k]
      else if over[k].Table? && k in below && below[k].Table? then Merge(below[k], over[k])
      else over[k]
  }

  function NamesUnder(entries: map<Key, Value>, done: set<Key>, prefix: string): set<string>
    requires done <= entries.Keys
  {
    set k, n | k in done && n in LeafNames(entries[k], Child(prefix, k)) :: n
  }

  lemma {:induction false} NoneNamed(entries: map<Key, Value>, prefix: string)
    ensures NamesUnder(entries, {}, prefix) == {}
  {
  }

  lemma {:induction false} NoneMerged(below: map<Key, Value>, over: map<Key, Value>)
    ensures MergedKeys(below, over, {}) == below
  {
  }

  lemma {:induction false} LeafIgnored(base: Value, overlay: Value)
    requires overlay.Leaf?
    ensures Merge(base, overlay) == base
  {
  }

  lemma {:induction false} KeyMerged(below: map<Key, Value>, over: map<Key, Value>, done: set<Key>, key: Key)
    requires done <= over.Keys && key in over && key !in done
    ensures var table := MergedKeys(below, over, done);
      && (key in table <==> key in below) && (key in below ==> table[key] == below[key])
      && MergedKeys(below, over, done + {key}) ==
         table[key := if over[key].Table? && key in below && below[key].Table? then Merge(below[key], over[key]) else over[key]]
  {
    hide Merge;
  }

  lemma {:induction false} KeyNamed(entries: map<Key, Value>, done: set<Key>, key: Key, prefix: string)
    requires done <= entries.Keys && key in entries
    ensures NamesUnder(entries, done + {key}, prefix)
            == NamesUnder(entries, done, prefix) + LeafNames(entries[key], Child(prefix, key))
    ensures entries[key].Table? ==> NamesOf(entries[key], Child(prefix, key)) == LeafNames(entries[key], Child(prefix, key))
  {
    hide LeafNames;
  }

  lemma {:induction false} RecordedTwice(origins: map<string, Origin>, a: set<string>, b: set<string>, source: Origin)
    ensures Recorded(Recorded(origins, a, source), b, source) == Recorded(origins, a + b, source)
  {
  }

  lemma {:induction false} RecordedLeaf(origins: map<string, Origin>, v: Value, prefix: string, source: Origin)
    requires v.Leaf?
    ensures Recorded(origins, LeafNames(v, prefix), source) == origins[prefix := source]
  {
  }

  lemma {:induction false} RecordedNone(origins: map<string, Origin>, source: Origin)
    ensures Recorded(origins, {}, source) == origins
  {
  }

  lemma {:induction false} AllMerged(base: Value, overlay: Value)
    requires overlay.Table?
    ensures Merge(base, overlay) == Table(MergedKeys(EntriesOf(base), overlay.entries, overlay.entries.Keys))
  {
  }

  lemma {:induction false} AllNamed(v: Value, prefix: string)
    requires v.Table?
    ensures LeafNames(v, prefix) == NamesUnder(v.entries, v.entries.Keys, prefix)
  {
  }

  // ---------------------------------------------------------------- what merging does to a path

  /** The layer puts something else where `path` could be: a table at it, or a leaf above it. */
  predicate Hides(layer: Value, path: Path)
    decreases |path|
  {
    && layer.Table? && path != [] && path[0] in layer.entries
    && (if |path| == 1 then layer.entries[path[0]].Table?
        else layer.entries[path[0]].Leaf? || Hides(layer.entries[path[0]], path[1..]))
  }

  /** A merged document has the layer's leaf where the layer has one, and otherwise the leaf below unless
      the layer hides it. */
  lemma {:induction false} MergedLeaf(base: Value, layer: Value, path: Path)
    requires path != []
    ensures LeafAt(Merge(base, layer), path) ==
      if LeafAt(layer, path).Some? then LeafAt(layer, path)
      else if Hides(layer, path) then None
      else LeafAt(base, path)
    decreases |path|
  {
    AtStep(Merge(base, layer), path);
    AtStep(base, path);
    AtStep(layer, path);
    if layer.Table? && path[0] in layer.entries && |path| > 1 {
      var k := path[0];
      if layer.entries[k].Table? && k in EntriesOf(base) && EntriesOf(base)[k].Table? {
        MergedLeaf(EntriesOf(base)[k], layer.entries[k], path[1..]);
      } else if k in EntriesOf(base) {
        AtStep(EntriesOf(base)[k], path[1..]);
      }
    }
  }

  // ---------------------------------------------------------------- any number of layers

  function MergedLayers(layers: seq<Layer>): Value {
    if layers == [] then EMPTY
    else Merge(MergedLayers(layers[..|layers| - 1]), layers[|layers| - 1].value)
  }

  function OriginsOf(layers: seq<Layer>): map<string, Origin> {
    if layers == [] then map[]
    else Recorded(OriginsOf(layers[..|layers| - 1]), NamesOf(layers[|layers| - 1].value, ""), layers[|layers| - 1].source)
  }

  /** Applying the layers one after the other. */
  method ApplyLayers(layers: seq<Layer>) returns (config: LayeredConfig)
    ensures fresh(config) && config.merged == MergedLayers(layers) && config.origins == OriginsOf(layers)
  {
    config := new LayeredConfig();
    for i := 0 to |layers|
      invariant fresh(config)
      invariant config.merged == MergedLayers(layers[..i]) && config.origins == OriginsOf(layers[..i])
    {
      assert layers[..i + 1][..i] == layers[..i];
      config.ApplyLayer(layers[i].value, layers[i].source);
    }
    assert layers[..|layers|] == layers;
  }

  /** The last layer with a leaf at `path`. */
  function LastLeafLayer(layers: seq<Layer>, path: Path): (i: Option<nat>)
    ensures i.Some? ==> i.value < |layers| && LeafAt(layers[i.value].value, path).Some?
    ensures forall k :: 0 <= k < |layers| && (i.Some? ==> i.value < k) ==> LeafAt(layers[k].value, path) == None
  {
    if layers == [] then None
    else if LeafAt(layers[|layers| - 1].value, path).Some? then Some(|layers| - 1)
    else LastLeafLayer(layers[..|layers| - 1], path)
  }

  /** The last layer with any leaf of the given name. */
  function LastNamed(layers: seq<Layer>, name: string): (i: Option<nat>)
    ensures i.Some? ==> i.value < |layers| && name in NamesOf(layers[i.value].value, "")
    ensures forall k :: 0 <= k < |layers| && (i.Some? ==> i.value < k) ==> name !in NamesOf(layers[k].value, "")
  {
    if layers == [] then None
    else if name in NamesOf(layers[|layers| - 1].value, "") then Some(|layers| - 1)
    else LastNamed(layers[..|layers| - 1], name)
  }

  /** A leaf of the merged document is the leaf of the last layer that has one there; and there is one if
      and only if no later layer hides it. */
  lemma {:induction false} EffectiveValue(layers: seq<Layer>, path: Path)
    requires path != []
    ensures var i := LastLeafLayer(layers, path);
      LeafAt(MergedLayers(layers), path) ==
        if i.Some? && !(exists k :: i.value < k < |layers| && Hides(layers[k].value, path))
        then LeafAt(layers[i.value].value, path) else None
  {
    if layers != [] {
      var before, last := layers[..|layers| - 1], layers[|layers| - 1];
      EffectiveValue(before, path);
      MergedLeaf(MergedLayers(before), last.value, path);
    }
  }

  /** Whatever the keys: the recorded origin of a name is the source of the last layer with a leaf of
      that name. */
  lemma {:induction false} RecordedOrigin(layers: seq<Layer>, name: string)
    ensures var i := LastNamed(layers, name);
      && (name in OriginsOf(layers) <==> i.Some?)
      && (i.Some? ==> OriginsOf(layers)[name] == layers[i.value].source)
  {
    hide NamesOf;
    if layers != [] {
      RecordedOrigin(layers[..|layers| - 1], name);
    }
  }

  // ---------------------------------------------------------------- names and leaves

  lemma {:induction false} LeafIsNamed(v: Value, prefix: string, path: Path)
    requires LeafAt(v, path).Some?
    ensures Name(prefix, path) in LeafNames(v, prefix)
    decreases |path|
  {
    if path != [] {
      LeafIsNamed(v.entries[path[0]], Child(prefix, path[0]), path[1..]);
    }
  }

  lemma {:induction false} NameHasLeaf(v: Value, prefix: string, name: string) returns (path: Path)
    requires name in LeafNames(v, prefix)
    ensures LeafAt(v, path).Some? && Name(prefix, path) == name
    decreases v
  {
    match v
    case Leaf(_) =>
      path := [];
    case Table(entries) =>
      var k :| k in entries && name in LeafNames(entries[k], Child(prefix, k));
      var rest := NameHasLeaf(entries[k], Child(prefix, k), name);
      path := [k] + rest;
      assert path[1..] == rest;
  }

  /** Every leaf of every layer has a nameable path. */
  ghost predicate AllNameable(layers: seq<Layer>) {
    forall i, path :: 0 <= i < |layers| && LeafAt(layers[i].value, path).Some? ==> Nameable(path)
  }

  /** With nameable keys, a name is recorded for the path it was made from and for no other. */
  lemma {:induction false} SameLast(layers: seq<Layer>, path: Path)
    requires AllNameable(layers) && path != [] && Nameable(path)
    ensures LastNamed(layers, Name("", path)) == LastLeafLayer(layers, path)
  {
    var name := Name("", path);
    forall k | 0 <= k < |layers|
      ensures name in NamesOf(layers[k].value, "") <==> LeafAt(layers[k].value, path).Some?
    {
      NameMeansLeaf(layers, k, path);
    }
    LastsAgree(layers, name, path);
  }

  lemma {:induction false} NameMeansLeaf(layers: seq<Layer>, k: nat, path: Path)
    requires AllNameable(layers) && path != [] && Nameable(path) && k < |layers|
    ensures Name("", path) in NamesOf(layers[k].value, "") <==> LeafAt(layers[k].value, path).Some?
  {
    hide Nameable, LeafNames, Name;
    var v := layers[k].value;
    if LeafAt(v, path).Some? {
      LeafIsNamed(v, "", path);
    }
    if Name("", path) in NamesOf(v, "") {
      var other := NameHasLeaf(v, "", Name("", path));
      assert other != [];
      NamesInjective(path, other);
    }
  }

  lemma {:induction false} LastsAgree(layers: seq<Layer>, name: string, path: Path)
    requires forall k :: 0 <= k < |layers| ==> (name in NamesOf(layers[k].value, "") <==> LeafAt(layers[k].value, path).Some?)
    ensures LastNamed(layers, name) == LastLeafLayer(layers, path)
  {
    hide NamesOf, LeafAt;
    if layers != [] {
      var before := layers[..|layers| - 1];
      assert forall k :: 0 <= k < |before| ==> before[k] == layers[k];
      LastsAgree(before, name, path);
    }
  }

  /** The origin is truthful: with nameable keys, every leaf of the merged document has a recorded origin,
      that origin is the last layer with a leaf at its path, and the effective value is that layer's. */
  lemma {:induction false} OriginIsTruthful(layers: seq<Layer>, path: Path)
    requires AllNameable(layers) && path != [] && LeafAt(MergedLayers(layers), path).Some?
    ensures var i := LastLeafLayer(layers, path);
      && i.Some?
      && LeafAt(MergedLayers(layers), path) == LeafAt(layers[i.value].value, path)
      && Name("", path) in OriginsOf(layers)
      && OriginsOf(layers)[Name("", path)] == layers[i.value].source
  {
    EffectiveValue(layers, path);
    var i := LastLeafLayer(layers, path);
    assert Nameable(path);
    SameLast(layers, path);
    RecordedOrigin(layers, Name("", path));
  }

  /** Whatever the keys: the origin recorded for a leaf is its layer's if and only if the last layer with
      a leaf of its name has the same source as the last layer with a leaf at its path. */
  lemma {:induction false} OriginTruthfulIff(layers: seq<Layer>, path: Path)
    requires path != [] && LeafAt(MergedLayers(layers), path).Some?
    ensures var i, n := LastLeafLayer(layers, path), LastNamed(layers, Name("", path));
      && i.Some? && n.Some? && i.value <= n.value
      && Name("", path) in OriginsOf(layers)
      && (OriginsOf(layers)[Name("", path)] == layers[i.value].source <==> layers[n.value].source == layers[i.value].source)
  {
    EffectiveValue(layers, path);
    var i := LastLeafLayer(layers, path);
    LeafIsNamed(layers[i.value].value, "", path);
    RecordedOrigin(layers, Name("", path));
  }

  /** An empty key at the top is not told apart by its name either: the name of a path that begins with it
      is the name of the rest. */
  lemma {:induction false} EmptyKeyMisattributed(x: Scalar, y: Scalar, first: Origin, second: Origin)
    requires first != second
    ensures var layers := [Layer(Table(map["a" := Leaf(x)]), first),
                           Layer(Table(map["" := Table(map["a" := Leaf(y)])]), second)];
      && LeafAt(MergedLayers(layers), ["a"]) == Some(x)
      && LastLeafLayer(layers, ["a"]) == Some(0)
      && Name("", ["a"]) in OriginsOf(layers)
      && OriginsOf(layers)[Name("", ["a"])] == second
  {
    var l1, l2 := Layer(Table(map["a" := Leaf(x)]), first), Layer(Table(map["" := Table(map["a" := Leaf(y)])]), second);
    var layers := [l1, l2];
    var plain, below := ["a"], ["", "a"];
    AtStep(l1.value, plain);
    AtStep(l2.value, plain);
    AtStep(l2.value, below);
    AtStep(Table(map["a" := Leaf(y)]), below[1..]);
    LeafIsNamed(l2.value, "", below);
    assert plain[1..] == [] && below[1..] == ["a"] && below[1..][1..] == [];
    assert Name("", plain) == "a" && Name("", below) == "a";
    EffectiveValue(layers, plain);
    RecordedOrigin(layers, "a");
  }

  /** A key with a dot in it is told apart from a nested table by its path, but not by its name: a later
      layer's nested leaf takes over the origin of an earlier layer's dotted one. */
  lemma {:induction false} DottedKeyMisattributed(x: Scalar, y: Scalar, first: Origin, second: Origin)
    requires first != second
    ensures var layers := [Layer(Table(map["a.b" := Leaf(x)]), first),
                           Layer(Table(map["a" := Table(map["b" := Leaf(y)])]), second)];
      && LeafAt(MergedLayers(layers), ["a.b"]) == Some(x)
      && LastLeafLayer(layers, ["a.b"]) == Some(0)
      && Name("", ["a.b"]) in OriginsOf(layers)
      && OriginsOf(layers)[Name("", ["a.b"])] == second
  {
    var l1, l2 := Layer(Table(map["a.b" := Leaf(x)]), first), Layer(Table(map["a" := Table(map["b" := Leaf(y)])]), second);
    var layers := [l1, l2];
    var dotted, nested := ["a.b"], ["a", "b"];
    AtStep(l1.value, dotted);
    AtStep(l2.value, dotted);
    AtStep(l2.value, nested);
    AtStep(Table(map["b" := Leaf(y)]), nested[1..]);
    LeafIsNamed(l2.value, "", nested);
    TopName(nested);
    TopName(dotted);
    assert Joined(nested) == "a.b";
    EffectiveValue(layers, dotted);
    RecordedOrigin(layers, "a.b");
  }
}
