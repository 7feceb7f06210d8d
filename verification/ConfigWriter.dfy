/** The two writers of configuration documents: the environment overlay, which inserts recursively, and
    the key writer, whose loop walks a cursor down the document and must agree with it. */
module ConfigWriter {
  import opened Options
  import opened ConfigTree

  // ---------------------------------------------------------------- the cursor loop

  /** Write through a cursor: replace the value at a path whose tables are there. */
  function Put(v: Value, path: Path, value: Value): Value
    requires path != [] ==> At(v, path[..|path| - 1]).Some? && At(v, path[..|path| - 1]).value.Table?
    decreases |path|
  {
    if path == [] then value
    else
      ParentsBelow(v, path);
      v.(entries := v.entries[path[0] := if |path| == 1 then value else Put(v.entries[path[0]], path[1..], value)])
  }

  /** The tables above a path, seen from one level down. */
  lemma {:induction false} ParentsBelow(v: Value, path: Path)
    requires path != [] && At(v, path[..|path| - 1]).Some? && At(v, path[..|path| - 1]).value.Table?
    ensures v.Table?
    ensures |path| > 1 ==>
      && path[0] in v.entries
      && At(v.entries[path[0]], path[1..][..|path| - 2]).Some? && At(v.entries[path[0]], path[1..][..|path| - 2]).value.Table?
  {
    if |path| > 1 {
      AtStep(v, path[..|path| - 1]);
      if |path| > 2 {
        assert path[..|path| - 1][1..] == path[1..][..|path| - 2];
      } else {
        assert path[1..][..0] == [];
      }
    } else {
      assert path[..0] == [];
    }
  }

  /** Insert into a document: one that is not a table counts as an empty one. */
  function InsertAt(v: Value, path: Path, leaf: Value): Value {
    Table(InsertPath(EntriesOf(v), path, leaf))
  }

  /** What the cursor sees after a write through it. */
  lemma {:induction false} PutReads(v: Value, path: Path, value: Value)
    requires path != [] ==> At(v, path[..|path| - 1]).Some? && At(v, path[..|path| - 1]).value.Table?
    ensures At(Put(v, path, value), path) == Some(value)
    decreases |path|
  {
    if path != [] {
      ParentsBelow(v, path);
      AtStep(Put(v, path, value), path);
      if |path| > 1 {
        PutReads(v.entries[path[0]], path[1..], value);
      }
    }
  }

  /** The insertion does not notice that the cursor made a table where it would have made one. */
  lemma {:induction false} MadeTable(v: Value, path: Path, rest: Path, leaf: Value)
    requires rest != []
    requires path != [] ==> At(v, path[..|path| - 1]).Some? && At(v, path[..|path| - 1]).value.Table?
    requires At(v, path).None? || At(v, path).value.Leaf?
    ensures InsertAt(Put(v, path, EMPTY), path + rest, leaf) == InsertAt(v, path + rest, leaf)
    decreases |path|
  {
    if path != [] {
      ParentsBelow(v, path);
      AtStep(v, path);
      assert (path + rest)[1..] == path[1..] + rest && (path + rest)[0] == path[0];
      if |path| == 1 {
        assert path[1..] + rest == rest;
      } else {
        MadeTable(v.entries[path[0]], path[1..], rest, leaf);
      }
    } else {
      assert path + rest == rest;
    }
  }

  /** The whole path is made in the end by one insertion under the cursor. */
  lemma {:induction false} LastInsertion(v: Value, path: Path, last: Key, leaf: Value)
    requires At(v, path).Some? && At(v, path).value.Table?
    ensures (path + [last])[..|path|] == path
    ensures Put(v, path + [last], leaf) == InsertAt(v, path + [last], leaf)
    decreases |path|
  {
    var whole := path + [last];
    assert whole[..|whole| - 1] == path;
    if path == [] {
      assert whole == [last];
    } else {
      AtStep(v, path);
      assert whole[1..] == path[1..] + [last] && whole[0] == path[0];
      if |path| == 1 {
        assert path[1..] == [];
      }
      LastInsertion(v.entries[path[0]], path[1..], last, leaf);
    }
  }

  /** Walk down the parts with a cursor into the document, normalising each value on the way to a table,
      and insert the leaf under the last part. */
  method SetDotted(doc0: Value, dotted: string, leaf: Value) returns (doc: Value)
    ensures doc == InsertAt(doc0, SplitDots(dotted), leaf)
  {
    hide Put, InsertAt, At, SplitDots;
    var parts := SplitDots(dotted);
    var last, prefix := parts[|parts| - 1], parts[..|parts| - 1];
    assert parts == prefix + [last];
    doc := doc0;
    var cur: Path := [];
    CursorAtRoot(doc);
    assert prefix[..0] == [];
    for i := 0 to |prefix|
      invariant cur == prefix[..i] && At(doc, cur).Some?
      invariant cur != [] ==> At(doc, cur[..|cur| - 1]).Some? && At(doc, cur[..|cur| - 1]).value.Table?
      invariant InsertAt(doc, parts, leaf) == InsertAt(doc0, parts, leaf)
    {
      doc := Normalized(doc, cur, parts, leaf);
      var next := cur + [prefix[i]];
      assert next[..|next| - 1] == cur;
      CursorStep(doc, cur, prefix[i]);
      if prefix[i] !in At(doc, cur).value.entries {
        assert parts == next + parts[i + 1..];
        MadeTable(doc, next, parts[i + 1..], leaf);
        PutReads(doc, next, EMPTY);
        PutKeepsParent(doc, next, EMPTY);
        doc := Put(doc, next, EMPTY);
      }
      cur := next;
    }
    assert cur == prefix;
    doc := Normalized(doc, cur, parts, leaf);
    LastInsertion(doc, cur, last, leaf);
    doc := Put(doc, cur + [last], leaf);
  }

  /** Make the value under the cursor a table, if it is not one. */
  method Normalized(doc: Value, cur: Path, ghost parts: Path, ghost leaf: Value) returns (r: Value)
    requires At(doc, cur).Some? && |cur| < |parts| && parts[..|cur|] == cur
    requires cur != [] ==> At(doc, cur[..|cur| - 1]).Some? && At(doc, cur[..|cur| - 1]).value.Table?
    ensures At(r, cur).Some? && At(r, cur).value.Table?
    ensures InsertAt(r, parts, leaf) == InsertAt(doc, parts, leaf)
  {
    hide Put, InsertAt, At;
    r := doc;
    if !At(doc, cur).value.Table? {
      assert parts == cur + parts[|cur|..];
      MadeTable(doc, cur, parts[|cur|..], leaf);
      PutReads(doc, cur, EMPTY);
      r := Put(doc, cur, EMPTY);
    }
  }

  lemma {:induction false} CursorAtRoot(doc: Value)
    ensures At(doc, []) == Some(doc)
  {
  }

  /** One key further down. */
  lemma {:induction false} CursorStep(v: Value, path: Path, key: Key)
    requires At(v, path).Some? && At(v, path).value.Table?
    ensures var entries := At(v, path).value.entries;
      At(v, path + [key]) == if key in entries then Some(entries[key]) else None
    decreases |path|
  {
    AtStep(v, path + [key]);
    if path == [] {
      assert path + [key] == [key];
    } else {
      AtStep(v, path);
      assert (path + [key])[1..] == path[1..] + [key];
      if |path| == 1 {
        assert path[1..] == [];
      }
      CursorStep(v.entries[path[0]], path[1..], key);
    }
  }

  lemma {:induction false} PutKeepsParent(v: Value, path: Path, value: Value)
    requires path != [] && At(v, path[..|path| - 1]).Some? && At(v, path[..|path| - 1]).value.Table?
    ensures var above := At(Put(v, path, value), path[..|path| - 1]); above.Some? && above.value.Table?
    decreases |path|
  {
    ParentsBelow(v, path);
    if |path| > 1 {
      PutKeepsParent(v.entries[path[0]], path[1..], value);
      assert path[1..][..|path| - 2] == path[..|path| - 1][1..];
    }
  }

  // ---------------------------------------------------------------- what a write does

  /** Reading back gives the leaf, and every path neither above nor below reads as before. */
  lemma {:induction false} WrittenLeaf(doc: Value, dotted: string, leaf: Value, other: Path)
    ensures var p := SplitDots(dotted); var doc' := InsertAt(doc, p, leaf);
      && At(doc', p) == Some(leaf)
      && (!Related(p, other) ==> At(doc', other) == At(Table(EntriesOf(doc)), other))
      && (!Related(p, other) && doc.Table? ==> At(doc', other) == At(doc, other))
  {
    var p := SplitDots(dotted);
    ReadsBack(EntriesOf(doc), p, leaf);
    if !Related(p, other) {
      OthersUnchanged(EntriesOf(doc), p, leaf, other);
    }
  }

  const WRITABLE: seq<(string, string)> :=
    [("permission", "mode"), ("log", "format"), ("network", "repository"), ("network", "workspace_filesystem"),
     ("network", "local_commands"), ("network", "internet"), ("network", "credentials")]

  /** A writable key: a section and a field. */
  predicate IsWritableKey(key: string) {
    exists i :: 0 <= i < |WRITABLE| && key == WRITABLE[i].0 + "." + WRITABLE[i].1
  }

  lemma {:induction false} WritableSplits(key: string)
    requires IsWritableKey(key)
    ensures |SplitDots(key)| == 2 && Joined(SplitDots(key)) == key
  {
    var i :| 0 <= i < |WRITABLE| && key == WRITABLE[i].0 + "." + WRITABLE[i].1;
    var path := [WRITABLE[i].0, WRITABLE[i].1];
    assert path[1..] == [WRITABLE[i].1];
    assert Joined(path[1..]) == WRITABLE[i].1;
    SplitsBack(path);
  }

  /** Writes to two different writable keys commute, on every document. */
  lemma {:induction false} WritableKeysCommute(doc: Value, key: string, x: Value, key': string, y: Value)
    requires IsWritableKey(key) && IsWritableKey(key') && key != key'
    ensures var p, q := SplitDots(key), SplitDots(key');
      InsertAt(InsertAt(doc, p, x), q, y) == InsertAt(InsertAt(doc, q, y), p, x)
  {
    hide SplitDots, IsWritableKey, InsertPath;
    var p, q := SplitDots(key), SplitDots(key');
    WritableSplits(key);
    WritableSplits(key');
    assert p != q;
    WritesCommute(EntriesOf(doc), p, x, q, y);
  }

  // ---------------------------------------------------------------- the environment overlay

  const PREFIX: string := "VALYRIA_"

  /** The parts of `s` between underscores, without the empty ones, in lower case. */
  function Segments(s: string, lower: string -> string): Path
    decreases |s|
  {
    var h := UpToUnderscore(s);
    var first := if h == "" then [] else [lower(h)];
    if |h| == |s| then first else first + Segments(s[|h| + 1..], lower)
  }

  function UpToUnderscore(s: string): (h: string)
    ensures '_' !in h && h <= s && (|h| < |s| ==> s[|h|] == '_')
  {
    if s == "" || s[0] == '_' then "" else [s[0]] + UpToUnderscore(s[1..])
  }

  /** The path a variable sets, if it sets one. */
  function PathOf(variable: string, lower: string -> string): Path {
    if PREFIX <= variable then Segments(variable[|PREFIX|..], lower) else []
  }

  datatype Conversions = Conversions(lower: string -> string, parse: string -> Scalar)

  function EnvTable(vars: seq<(string, string)>, conv: Conversions): map<Key, Value> {
    if vars == [] then map[]
    else
      var (name, value) := vars[|vars| - 1];
      InsertPath(EnvTable(vars[..|vars| - 1], conv), PathOf(name, conv.lower), Leaf(conv.parse(value)))
  }

  method EnvLayer(vars: seq<(string, string)>, conv: Conversions) returns (layer: Value)
    ensures layer == Table(EnvTable(vars, conv))
  {
    var root: map<Key, Value> := map[];
    for i := 0 to |vars|
      invariant root == EnvTable(vars[..i], conv)
    {
      assert vars[..i + 1][..i] == vars[..i];
      var (name, value) := vars[i];
      var segments := PathOf(name, conv.lower);
      if segments != [] {
        root := InsertPath(root, segments, Leaf(conv.parse(value)));
      }
    }
    assert vars[..|vars|] == vars;
    layer := Table(root);
  }

  /** A variable's value is there at its path, unless a later variable writes at, above or below it. */
  lemma {:induction false} EnvReadsBack(vars: seq<(string, string)>, conv: Conversions, i: nat)
    requires i < |vars| && PathOf(vars[i].0, conv.lower) != []
    requires forall k :: i < k < |vars| ==> !Related(PathOf(vars[k].0, conv.lower), PathOf(vars[i].0, conv.lower))
                                            || PathOf(vars[k].0, conv.lower) == []
    ensures At(Table(EnvTable(vars, conv)), PathOf(vars[i].0, conv.lower)) == Some(Leaf(conv.parse(vars[i].1)))
  {
    hide PathOf;
    var before, last := vars[..|vars| - 1], vars[|vars| - 1];
    if i == |vars| - 1 {
      ReadsBack(EnvTable(before, conv), PathOf(last.0, conv.lower), Leaf(conv.parse(last.1)));
    } else {
      EnvReadsBack(before, conv, i);
      if PathOf(last.0, conv.lower) != [] {
        OthersUnchanged(EnvTable(before, conv), PathOf(last.0, conv.lower), Leaf(conv.parse(last.1)), PathOf(vars[i].0, conv.lower));
      }
    }
  }

  /** Lowering never makes an underscore or an empty part. */
  ghost predicate Sensible(lower: string -> string) {
    forall s :: '_' !in s && s != "" ==> '_' !in lower(s) && lower(s) != ""
  }

  lemma {:induction false} SegmentsHaveNoUnderscore(s: string, lower: string -> string)
    requires Sensible(lower)
    ensures forall i :: 0 <= i < |Segments(s, lower)| ==> '_' !in Segments(s, lower)[i] && Segments(s, lower)[i] != ""
    decreases |s|
  {
    var h := UpToUnderscore(s);
    if |h| < |s| {
      SegmentsHaveNoUnderscore(s[|h| + 1..], lower);
    }
  }

  lemma {:induction false} UnderscoreOf(part: string, rest: string)
    requires '_' !in part
    ensures UpToUnderscore(part + "_" + rest) == part && UpToUnderscore(part) == part
  {
    if part != "" {
      assert (part + "_" + rest)[1..] == part[1..] + "_" + rest;
      UnderscoreOf(part[1..], rest);
    }
  }

  function Underscored(path: Path): string
    requires path != []
  {
    if |path| == 1 then path[0] else path[0] + "_" + Underscored(path[1..])
  }

  /** The parts that are not empty, in lower case. */
  function Spelled(parts: Path, lower: string -> string): Path {
    if parts == [] then []
    else (if parts[0] == "" then [] else [lower(parts[0])]) + Spelled(parts[1..], lower)
  }

  lemma {:induction false} SegmentsSpell(parts: Path, lower: string -> string)
    requires parts != [] && forall i :: 0 <= i < |parts| ==> '_' !in parts[i]
    ensures Segments(Underscored(parts), lower) == Spelled(parts, lower)
  {
    hide UpToUnderscore;
    if |parts| == 1 {
      UnderscoreOf(parts[0], "");
      assert parts[1..] == [];
    } else {
      var rest := Underscored(parts[1..]);
      UnderscoreOf(parts[0], rest);
      SegmentsSpell(parts[1..], lower);
      assert (parts[0] + "_" + rest)[|parts[0]| + 1..] == rest;
    }
  }

  lemma {:induction false} EachSpelled(parts: Path, lower: string -> string)
    requires forall i :: 0 <= i < |parts| ==> parts[i] != ""
    ensures |Spelled(parts, lower)| == |parts|
    ensures forall i :: 0 <= i < |parts| ==> Spelled(parts, lower)[i] == lower(parts[i])
  {
    if parts != [] {
      EachSpelled(parts[1..], lower);
    }
  }

  /** What a variable sets: with the prefix, the parts between underscores in lower case, one after the other,
      whatever they are, empty ones skipped; without it, nothing. */
  lemma {:induction false} VariableSets(parts: Path, lower: string -> string)
    requires parts != [] && forall i :: 0 <= i < |parts| ==> '_' !in parts[i]
    ensures PathOf("VALYRIA_" + Underscored(parts), lower) == Spelled(parts, lower)
    ensures (forall i :: 0 <= i < |parts| ==> parts[i] != "") ==>
              PathOf("VALYRIA_" + Underscored(parts), lower) == seq(|parts|, i requires 0 <= i < |parts| => lower(parts[i]))
    ensures forall name :: !("VALYRIA_" <= name) ==> PathOf(name, lower) == []
  {
    hide Segments, Underscored;
    var name := "VALYRIA_" + Underscored(parts);
    assert name[|PREFIX|..] == Underscored(parts);
    SegmentsSpell(parts, lower);
    if forall i :: 0 <= i < |parts| ==> parts[i] != "" {
      EachSpelled(parts, lower);
    }
  }

  /** So the permission mode is set by the variable in capitals. */
  lemma {:induction false} PermissionModeVariable(lower: string -> string)
    requires lower("PERMISSION") == "permission" && lower("MODE") == "mode"
    ensures PathOf("VALYRIA_PERMISSION_MODE", lower) == ["permission", "mode"]
  {
    hide PathOf;
    var parts := ["PERMISSION", "MODE"];
    assert parts[1..] == ["MODE"];
    assert Underscored(parts[1..]) == "MODE";
    assert "VALYRIA_" + Underscored(parts) == "VALYRIA_PERMISSION_MODE";
    VariableSets(parts, lower);
    assert [lower(parts[0]), lower(parts[1])] == ["permission", "mode"];
  }

  /** A setting whose names are in lower case can be set from the environment if and only if none of its
      names holds an underscore. */
  lemma {:induction false} ReachableFromEnv(path: Path, lower: string -> string)
    requires Sensible(lower) && path != [] && forall i :: 0 <= i < |path| ==> path[i] != "" && lower(path[i]) == path[i]
    ensures (exists name :: PathOf(name, lower) == path) <==> forall i :: 0 <= i < |path| ==> '_' !in path[i]
  {
    hide Segments, Underscored;
    if forall i :: 0 <= i < |path| ==> '_' !in path[i] {
      VariableSets(path, lower);
      var name := "VALYRIA_" + Underscored(path);
      assert PathOf(name, lower) == path;
    }
    forall name | PathOf(name, lower) == path
      ensures forall i :: 0 <= i < |path| ==> '_' !in path[i]
    {
      SegmentsHaveNoUnderscore(name[|PREFIX|..], lower);
    }
  }

  /** Two of the writable keys therefore have no environment variable. */
  lemma {:induction false} TwoKeysUnreachable(lower: string -> string, name: string)
    requires Sensible(lower)
    ensures PathOf(name, lower) != ["network", "workspace_filesystem"]
    ensures PathOf(name, lower) != ["network", "local_commands"]
  {
    hide Segments;
    var path := PathOf(name, lower);
    if |path| == 2 {
      SegmentsHaveNoUnderscore(name[|PREFIX|..], lower);
      assert '_' !in path[1];
      assert "workspace_filesystem"[9] == '_' && "local_commands"[5] == '_';
    }
  }
}
