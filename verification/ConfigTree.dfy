/** Configuration documents: trees of tables with scalar leaves, read and written along paths. */
module ConfigTree {
  import opened Options

  type Key = string

  /** A leaf is any value that is not a table. */
  datatype Scalar = Boolean(b: bool) | Integer(i: int) | Float(r: real) | String(s: string) | Other(text: string)

  datatype Value = Leaf(scalar: Scalar) | Table(entries: map<Key, Value>)

  const EMPTY: Value := Table(map[])

  type Path = seq<Key>

  /** The value at a path, if the tables on the way are there. */
  function At(v: Value, path: Path): Option<Value> {
    if path == [] then Some(v)
    else if v.Table? && path[0] in v.entries then At(v.entries[path[0]], path[1..])
    else None
  }

  lemma {:induction false} AtStep(v: Value, path: Path)
    requires path != []
    ensures At(v, path) ==
      if v.Table? && path[0] in v.entries
      then (if |path| == 1 then Some(v.entries[path[0]]) else At(v.entries[path[0]], path[1..]))
      else None
  {
    if |path| == 1 {
      assert path[1..] == [];
    }
  }

  function LeafAt(v: Value, path: Path): Option<Scalar> {
    match At(v, path)
    case Some(Leaf(s)) => Some(s)
    case _ => None
  }

  /** The entries of a table; anything else counts as an empty one. */
  function EntriesOf(v: Value): map<Key, Value> {
    if v.Table? then v.entries else map[]
  }

  // ---------------------------------------------------------------- writing along a path

  /** Insert `value` at the path, making tables on the way and replacing what is not one. */
  function InsertPath(table: map<Key, Value>, segments: Path, value: Value): map<Key, Value>
    decreases |segments|
  {
    if segments == [] then table
    else if |segments| == 1 then table[segments[0] := value]
    else
      var inner := if segments[0] in table then EntriesOf(table[segments[0]]) else map[];
      table[segments[0] := Table(InsertPath(inner, segments[1..], value))]
  }

  predicate Related(p: Path, q: Path) {
    p <= q || q <= p
  }

  /** Reading back gives what was written. */
  lemma {:induction false} ReadsBack(table: map<Key, Value>, path: Path, value: Value)
    requires path != []
    ensures At(Table(InsertPath(table, path, value)), path) == Some(value)
    decreases |path|
  {
    if |path| > 1 {
      var inner := if path[0] in table then EntriesOf(table[path[0]]) else map[];
      ReadsBack(inner, path[1..], value);
    } else {
      assert path[1..] == [];
    }
  }

  /** Nothing else changes: a path that is neither above nor below the written one reads as before. */
  lemma {:induction false} OthersUnchanged(table: map<Key, Value>, path: Path, value: Value, other: Path)
    requires !Related(path, other)
    ensures At(Table(InsertPath(table, path, value)), other) == At(Table(table), other)
    decreases |path|
  {
    if path[0] == other[0] {
      assert !Related(path[1..], other[1..]);
      var inner := if path[0] in table then EntriesOf(table[path[0]]) else map[];
      assert |path| > 1 && other[1..] != [];
      OthersUnchanged(inner, path[1..], value, other[1..]);
    }
  }

  /** The new value of the first key. */
  function Rewritten(table: map<Key, Value>, segments: Path, value: Value): Value
    requires segments != []
  {
    if |segments| == 1 then value
    else Table(InsertPath(if segments[0] in table then EntriesOf(table[segments[0]]) else map[], segments[1..], value))
  }

  lemma {:induction false} OneKeyRewritten(table: map<Key, Value>, segments: Path, value: Value)
    requires segments != []
    ensures InsertPath(table, segments, value) == table[segments[0] := Rewritten(table, segments, value)]
  {
  }

  /** Writes to unrelated paths commute. */
  lemma {:induction false} WritesCommute(table: map<Key, Value>, p: Path, x: Value, q: Path, y: Value)
    requires !Related(p, q)
    ensures InsertPath(InsertPath(table, p, x), q, y) == InsertPath(InsertPath(table, q, y), p, x)
    decreases |p|
  {
    hide InsertPath;
    var tp, tq := InsertPath(table, p, x), InsertPath(table, q, y);
    OneKeyRewritten(table, p, x);
    OneKeyRewritten(table, q, y);
    OneKeyRewritten(tp, q, y);
    OneKeyRewritten(tq, p, x);
    if p[0] == q[0] {
      assert !Related(p[1..], q[1..]);
      assert |p| > 1 && |q| > 1;
      WritesCommute(if p[0] in table then EntriesOf(table[p[0]]) else map[], p[1..], x, q[1..], y);
    }
  }

  // ---------------------------------------------------------------- dotted names

  predicate DotFree(k: Key) {
    '.' !in k
  }

  /** A path as the name origins are recorded under. */
  function Child(prefix: string, key: Key): string {
    if prefix == "" then key else prefix + "." + key
  }

  function Name(prefix: string, path: Path): string
    decreases |path|
  {
    if path == [] then prefix else Name(Child(prefix, path[0]), path[1..])
  }

  /** Names are ambiguous if a key holds a dot, or if the first key is empty. */
  predicate Nameable(path: Path) {
    && (forall i :: 0 <= i < |path| ==> DotFree(path[i]))
    && (path != [] ==> path[0] != "")
  }

  /** The text up to the first dot. */
  function Head(s: string): (h: string)
    ensures DotFree(h) && h <= s && (|h| < |s| ==> s[|h|] == '.')
  {
    if s == "" || s[0] == '.' then "" else [s[0]] + Head(s[1..])
  }

  function SplitDots(s: string): (parts: Path)
    ensures parts != [] && forall i :: 0 <= i < |parts| ==> DotFree(parts[i])
    decreases |s|
  {
    var h := Head(s);
    if |h| == |s| then [s] else [h] + SplitDots(s[|h| + 1..])
  }

  lemma {:induction false} HeadOf(k: Key, rest: string)
    requires DotFree(k)
    ensures Head(k + "." + rest) == k && Head(k) == k
  {
    if k != "" {
      assert (k + "." + rest)[1..] == k[1..] + "." + rest;
      HeadOf(k[1..], rest);
    }
  }

  /** The path joined by dots. */
  function Joined(path: Path): string
    requires path != []
  {
    if |path| == 1 then path[0] else path[0] + "." + Joined(path[1..])
  }

  lemma {:induction false} SplitsBack(path: Path)
    requires path != [] && forall i :: 0 <= i < |path| ==> DotFree(path[i])
    ensures SplitDots(Joined(path)) == path
  {
    hide Head, DotFree;
    if |path| == 1 {
      HeadOf(path[0], "");
      assert path == [path[0]];
    } else {
      var rest := Joined(path[1..]);
      HeadOf(path[0], rest);
      SplitsBack(path[1..]);
      assert (path[0] + "." + rest)[|path[0]| + 1..] == rest;
      assert path == [path[0]] + path[1..];
    }
  }

  lemma {:induction false} NameIsJoined(prefix: string, path: Path)
    requires prefix != "" && path != []
    ensures Name(prefix, path) == prefix + "." + Joined(path)
    decreases |path|
  {
    var child := Child(prefix, path[0]);
    if |path| == 1 {
      assert path[1..] == [];
    } else {
      NameIsJoined(child, path[1..]);
    }
  }

  lemma {:induction false} TopName(path: Path)
    requires path != [] && path[0] != ""
    ensures Name("", path) == Joined(path)
  {
    if |path| == 1 {
      assert path[1..] == [];
    } else {
      NameIsJoined(path[0], path[1..]);
    }
  }

  /** On nameable paths the name determines the path. */
  lemma {:induction false} NamesInjective(p: Path, q: Path)
    requires p != [] && q != [] && Nameable(p) && Nameable(q)
    requires Name("", p) == Name("", q)
    ensures p == q
  {
    TopName(p);
    TopName(q);
    SplitsBack(p);
    SplitsBack(q);
  }
}
