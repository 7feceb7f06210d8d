/** Editing a text at byte spans: back to front, and all at once. */
module Splice {
  import opened Sequences
  import opened Utf8

  datatype Span = Span(startByte: nat, endByte: nat)

  type Text = seq<Byte>

  // ---------------------------------------------------------------- one span

  /** The nearest character boundary at or before a byte. */
  function FloorBoundary(s: Text, byte: nat): (i: nat)
    ensures i <= |s| && Boundary(s, i)
    ensures byte <= |s| ==> i <= byte && (Boundary(s, byte) ==> i == byte)
    ensures forall k :: i < k <= byte && k <= |s| ==> !Boundary(s, k)
  {
    if byte >= |s| then |s|
    else if Boundary(s, byte) then byte
    else FloorBoundary(s, byte - 1)
  }

  method FloorCharBoundary(s: Text, byte: nat) returns (i: nat)
    ensures i == FloorBoundary(s, byte)
  {
    if byte >= |s| {
      return |s|;
    }
    i := byte;
    while i > 0 && !Boundary(s, i)
      invariant i <= byte && FloorBoundary(s, byte) == FloorBoundary(s, i)
    {
      i := i - 1;
    }
  }

  function Spliced(source: Text, span: Span, replacement: Text): Text {
    var start := FloorBoundary(source, span.startByte);
    var end := FloorBoundary(source, span.endByte);
    source[..start] + replacement + source[if end >= start then end else start..]
  }

  method SpliceOne(source: Text, span: Span, replacement: Text) returns (out: Text)
    ensures out == Spliced(source, span, replacement)
  {
    var start := FloorCharBoundary(source, span.startByte);
    var end := FloorCharBoundary(source, span.endByte);
    if end < start {
      end := start;
    }
    out := [];
    out := out + source[..start];
    out := out + replacement;
    out := out + source[end..];
  }

  /** Whatever the span - out of range, reversed, or inside a character. */
  lemma {:induction false} SpliceKeepsValid(source: Text, span: Span, replacement: Text)
    requires Valid(source) && Valid(replacement)
    ensures Valid(Spliced(source, span, replacement))
  {
    hide Valid, FloorBoundary;
    var start := FloorBoundary(source, span.startByte);
    var end := FloorBoundary(source, span.endByte);
    var after := if end >= start then end else start;
    ValidSplit(source, start);
    ValidSplit(source, after);
    ValidConcat(source[..start], replacement);
    ValidConcat(source[..start] + replacement, source[after..]);
  }

  // ---------------------------------------------------------------- several spans

  predicate LaterFirst(a: Span, b: Span) {
    a.startByte >= b.startByte
  }

  /** One splice after the other. */
  function SplicedAll(source: Text, spans: seq<Span>, replacement: Span -> Text): Text
    decreases |spans|
  {
    if spans == [] then source
    else SplicedAll(Spliced(source, spans[0], replacement(spans[0])), spans[1..], replacement)
  }

  method SpliceMany(source: Text, spans: seq<Span>, replacement: Span -> Text) returns (out: Text)
    ensures out == SplicedAll(source, SortBy(LaterFirst, spans), replacement)
  {
    hide Spliced;
    var ordered := SortBy(LaterFirst, spans);
    out := source;
    assert ordered[0..] == ordered;
    for i := 0 to |ordered|
      invariant SplicedAll(source, ordered, replacement) == SplicedAll(out, ordered[i..], replacement)
    {
      assert ordered[i..][1..] == ordered[i + 1..];
      out := SpliceOne(out, ordered[i], replacement(ordered[i]));
    }
  }

  lemma {:induction false} AllKeepValid(source: Text, spans: seq<Span>, replacement: Span -> Text)
    requires Valid(source) && forall s :: s in spans ==> Valid(replacement(s))
    ensures Valid(SplicedAll(source, spans, replacement))
    decreases |spans|
  {
    hide Valid, Spliced;
    if spans != [] {
      SpliceKeepsValid(source, spans[0], replacement(spans[0]));
      AllKeepValid(Spliced(source, spans[0], replacement(spans[0])), spans[1..], replacement);
    }
  }

  /** Overlapping, nested, repeated or out-of-range spans never leave a broken character behind. */
  lemma {:induction false} SpliceManyKeepsValid(source: Text, spans: seq<Span>, replacement: Span -> Text)
    requires Valid(source) && forall s :: s in spans ==> Valid(replacement(s))
    ensures Valid(SplicedAll(source, SortBy(LaterFirst, spans), replacement))
  {
    hide Valid;
    SortPermutes(LaterFirst, spans);
    SameElements(SortBy(LaterFirst, spans), spans);
    AllKeepValid(source, SortBy(LaterFirst, spans), replacement);
  }

  // ---------------------------------------------------------------- simultaneous replacement

  /** Spans in source order: each ends before the next starts, and all lie in the text on character
      boundaries. */
  ghost predicate InSourceOrder(source: Text, spans: seq<Span>) {
    && (forall i :: 0 <= i < |spans| ==>
          && spans[i].startByte <= spans[i].endByte <= |source|
          && Boundary(source, spans[i].startByte) && Boundary(source, spans[i].endByte))
    && (forall i, j :: 0 <= i < j < |spans| ==> spans[i].endByte <= spans[j].startByte)
  }

  /** No two of them start together. */
  ghost predicate Apart(spans: seq<Span>) {
    forall i, j :: 0 <= i < j < |spans| ==> spans[i].startByte < spans[j].startByte
  }

  /** All spans lie between `from` and `upto`. */
  ghost predicate Between(source: Text, spans: seq<Span>, from: nat, upto: nat) {
    && from <= upto <= |source| && InSourceOrder(source, spans)
    && forall i :: 0 <= i < |spans| ==> from <= spans[i].startByte && spans[i].endByte <= upto
  }

  /** The part of the text between `from` and `upto`, with the spans in it replaced: the gaps between them
      unchanged, interleaved with the replacements. */
  ghost function Interleaved(source: Text, spans: seq<Span>, replacement: Span -> Text, from: nat, upto: nat): Text
    requires Between(source, spans, from, upto)
    decreases |spans|
  {
    if spans == [] then source[from..upto]
    else
      WithoutFirst(source, spans, from, upto);
      source[from..spans[0].startByte] + replacement(spans[0])
      + Interleaved(source, spans[1..], replacement, spans[0].endByte, upto)
  }

  lemma {:induction false} WithoutFirst(source: Text, spans: seq<Span>, from: nat, upto: nat)
    requires Between(source, spans, from, upto) && spans != []
    ensures Between(source, spans[1..], spans[0].endByte, upto)
    ensures from <= spans[0].startByte <= spans[0].endByte <= upto
  {
    hide Boundary;
    var rest := spans[1..];
    assert forall i :: 0 <= i < |rest| ==> rest[i] == spans[i + 1];
  }

  lemma {:induction false} WithoutLast(source: Text, spans: seq<Span>, from: nat, upto: nat)
    requires Between(source, spans, from, upto) && spans != []
    ensures var last := spans[|spans| - 1];
      && Between(source, spans[..|spans| - 1], from, last.startByte)
      && last.startByte <= last.endByte <= upto
      && Boundary(source, last.startByte) && Boundary(source, last.endByte)
  {
    hide Boundary;
    var before := spans[..|spans| - 1];
    assert forall i :: 0 <= i < |before| ==> before[i] == spans[i];
  }

  /** The same taken apart at the last span. */
  lemma {:induction false} LastInterleaved(source: Text, spans: seq<Span>, replacement: Span -> Text, from: nat, upto: nat)
    requires Between(source, spans, from, upto) && spans != []
    ensures var last := spans[|spans| - 1];
      && Between(source, spans[..|spans| - 1], from, last.startByte) && last.startByte <= last.endByte <= upto
      && Interleaved(source, spans, replacement, from, upto)
         == Interleaved(source, spans[..|spans| - 1], replacement, from, last.startByte) + replacement(last)
            + source[last.endByte..upto]
    decreases |spans|
  {
    hide Between, Interleaved;
    WithoutLast(source, spans, from, upto);
    FirstInterleaved(source, spans, replacement, from, upto);
    var before := spans[..|spans| - 1];
    if |spans| > 1 {
      var first, rest := spans[0], spans[1..];
      LastInterleaved(source, rest, replacement, first.endByte, upto);
      assert before[1..] == rest[..|rest| - 1] && before[0] == first;
      FirstInterleaved(source, before, replacement, from, spans[|spans| - 1].startByte);
    } else {
      NoneInterleaved(source, spans[1..], replacement, spans[0].endByte, upto);
      NoneInterleaved(source, before, replacement, from, spans[0].startByte);
    }
  }

  lemma {:induction false} NoneInterleaved(source: Text, spans: seq<Span>, replacement: Span -> Text, from: nat, upto: nat)
    requires spans == [] && Between(source, spans, from, upto)
    ensures from <= upto <= |source| && Interleaved(source, spans, replacement, from, upto) == source[from..upto]
  {
  }

  lemma {:induction false} FirstInterleaved(source: Text, spans: seq<Span>, replacement: Span -> Text, from: nat, upto: nat)
    requires Between(source, spans, from, upto) && spans != []
    ensures from <= spans[0].startByte <= spans[0].endByte <= upto <= |source|
    ensures Between(source, spans[1..], spans[0].endByte, upto)
    ensures Interleaved(source, spans, replacement, from, upto)
            == source[from..spans[0].startByte] + replacement(spans[0])
               + Interleaved(source, spans[1..], replacement, spans[0].endByte, upto)
  {
    WithoutFirst(source, spans, from, upto);
  }

  /** The spans from the last to the first. */
  function Backwards(spans: seq<Span>): (r: seq<Span>)
    ensures |r| == |spans| && forall i :: 0 <= i < |r| ==> r[i] == spans[|spans| - 1 - i]
  {
    seq(|spans|, i requires 0 <= i < |spans| => spans[|spans| - 1 - i])
  }

  /** One splice at the back, with everything behind it already replaced. */
  lemma {:induction false} LastSpliced(source: Text, last: Span, replaced: Text, upto: nat, behind: Text)
    requires Valid(source) && Valid(behind) && upto <= |source| && Boundary(source, upto)
    requires last.startByte <= last.endByte <= upto
    requires Boundary(source, last.startByte) && Boundary(source, last.endByte)
    ensures Spliced(source[..upto] + behind, last, replaced)
            == source[..last.startByte] + (replaced + source[last.endByte..upto] + behind)
  {
    hide Valid;
    var text := source[..upto] + behind;
    StillBoundary(source, upto, behind, last.startByte);
    StillBoundary(source, upto, behind, last.endByte);
    assert text[..last.startByte] == source[..last.startByte];
    assert text[last.endByte..] == source[last.endByte..upto] + behind;
  }

  lemma {:induction false} StillBoundary(source: Text, upto: nat, behind: Text, i: nat)
    requires Valid(behind) && i <= upto <= |source| && Boundary(source, i)
    ensures Boundary(source[..upto] + behind, i)
  {
    var text := source[..upto] + behind;
    if i < upto {
      assert text[i] == source[i];
    } else if behind != [] {
      assert text[i] == behind[0];
    }
  }

  lemma {:induction false} ValidBehind(source: Text, last: Span, replaced: Text, upto: nat, behind: Text)
    requires Valid(source) && Valid(behind) && Valid(replaced)
    requires last.endByte <= upto <= |source| && Boundary(source, upto) && Boundary(source, last.endByte)
    ensures Valid(replaced + source[last.endByte..upto] + behind)
  {
    hide Valid;
    ValidSplit(source, upto);
    var front := source[..upto];
    if last.endByte < upto {
      assert front[last.endByte] == source[last.endByte];
    }
    ValidSplit(front, last.endByte);
    assert front[last.endByte..] == source[last.endByte..upto];
    ValidConcat(replaced, source[last.endByte..upto]);
    ValidConcat(replaced + source[last.endByte..upto], behind);
  }

  /** Splicing back to front leaves the interleaving in front of what is already replaced. */
  lemma {:induction false} BackToFront(source: Text, spans: seq<Span>, replacement: Span -> Text, upto: nat, behind: Text)
    requires Valid(source) && Valid(behind) && forall s :: s in spans ==> Valid(replacement(s))
    requires Between(source, spans, 0, upto) && Boundary(source, upto)
    ensures upto <= |source|
    ensures SplicedAll(source[..upto] + behind, Backwards(spans), replacement)
            == Interleaved(source, spans, replacement, 0, upto) + behind
    decreases |spans|
  {
    hide Valid, Spliced, Boundary, Interleaved, InSourceOrder;
    if spans == [] {
      NoSpans(source, spans, replacement, upto);
    } else {
      var before, last := spans[..|spans| - 1], spans[|spans| - 1];
      var behind' := replacement(last) + source[last.endByte..upto] + behind;
      assert last in spans;
      WithoutLast(source, spans, 0, upto);
      LastSpliced(source, last, replacement(last), upto, behind);
      ValidBehind(source, last, replacement(last), upto, behind);
      BackToFront(source, before, replacement, last.startByte, behind');
      assert Backwards(spans)[0] == last && Backwards(spans)[1..] == Backwards(before);
      LastInterleaved(source, spans, replacement, 0, upto);
    }
  }

  lemma {:induction false} NoSpans(source: Text, spans: seq<Span>, replacement: Span -> Text, upto: nat)
    requires Between(source, spans, 0, upto) && spans == []
    ensures Interleaved(source, spans, replacement, 0, upto) == source[..upto]
  {
  }

  /** Spans sorted from the last to the first are the spans in source order, backwards: no two start
      together, so there is only one such order. */
  lemma {:induction false} SortedBackwards(spans: seq<Span>, inOrder: seq<Span>)
    requires Apart(inOrder) && multiset(spans) == multiset(inOrder)
    ensures SortBy(LaterFirst, spans) == Backwards(inOrder)
  {
    hide SortBy;
    var sorted, back := SortBy(LaterFirst, spans), Backwards(inOrder);
    SortPermutes(LaterFirst, spans);
    SortSorts(LaterFirst, spans);
    BackwardsPermutes(inOrder);
    OneDescent(sorted, back);
  }

  lemma {:induction false} BackwardsPermutes(spans: seq<Span>)
    ensures multiset(Backwards(spans)) == multiset(spans)
  {
    if spans != [] {
      var before, last := spans[..|spans| - 1], spans[|spans| - 1];
      BackwardsPermutes(before);
      assert Backwards(spans) == [last] + Backwards(before);
      assert spans == before + [last];
    }
  }

  ghost predicate Descends(b: seq<Span>) {
    forall i, j :: 0 <= i < j < |b| ==> b[i].startByte > b[j].startByte
  }

  lemma {:induction false} OneDescent(a: seq<Span>, b: seq<Span>)
    requires multiset(a) == multiset(b) && Sorted(LaterFirst, a) && Descends(b)
    ensures a == b
  {
    hide Sorted, Descends;
    SameElements(a, b);
    if a != [] {
      SameFirst(a, b);
      assert a == [a[0]] + a[1..] && b == [b[0]] + b[1..];
      assert multiset(a[1..]) == multiset(a) - multiset{a[0]} == multiset(b[1..]);
      TailsDescend(a, b);
      OneDescent(a[1..], b[1..]);
    }
  }

  lemma {:induction false} SameFirst(a: seq<Span>, b: seq<Span>)
    requires a != [] && b != [] && a[0] in b && b[0] in a && Sorted(LaterFirst, a) && Descends(b)
    ensures a[0] == b[0]
  {
    var i :| 0 <= i < |b| && b[i] == a[0];
    var j :| 0 <= j < |a| && a[j] == b[0];
    assert j > 0 ==> LaterFirst(a[0], a[j]);
  }

  lemma {:induction false} TailsDescend(a: seq<Span>, b: seq<Span>)
    requires a != [] && b != [] && Sorted(LaterFirst, a) && Descends(b)
    ensures Sorted(LaterFirst, a[1..]) && Descends(b[1..])
  {
    var tail := a[1..];
    forall i, j | 0 <= i < j < |tail|
      ensures LaterFirst(tail[i], tail[j])
    {
      assert LaterFirst(a[i + 1], a[j + 1]);
    }
    assert forall i :: 0 <= i < |b[1..]| ==> b[1..][i] == b[i + 1];
  }

  /** Whenever the spans, sorted the way the code sorts them, are in source order from back to front, editing
      is replacing them all at once: the result is the unchanged gaps interleaved with the replacements. Of
      spans that start together the one listed later comes first, so an insertion listed behind the
      replacement at its place lands in front of it. */
  lemma {:induction false} ListedEdit(source: Text, spans: seq<Span>, replacement: Span -> Text)
    requires Valid(source) && forall s :: s in spans ==> Valid(replacement(s))
    requires Between(source, Backwards(SortBy(LaterFirst, spans)), 0, |source|)
    ensures SplicedAll(source, SortBy(LaterFirst, spans), replacement)
            == Interleaved(source, Backwards(SortBy(LaterFirst, spans)), replacement, 0, |source|)
  {
    hide Valid, Spliced, SplicedAll, SortBy, Interleaved, Boundary;
    var sorted := SortBy(LaterFirst, spans);
    SortPermutes(LaterFirst, spans);
    SameElements(sorted, spans);
    assert Valid([]) by {
      NothingValid();
    }
    assert Boundary(source, |source|) by {
      EndIsBoundary(source);
    }
    BackToFront(source, Backwards(sorted), replacement, |source|, []);
    assert Backwards(Backwards(sorted)) == sorted;
    assert source[..|source|] + [] == source;
  }

  /** On disjoint spans that start apart this is so in whatever order they are listed. */
  lemma {:induction false} SimultaneousEdit(source: Text, spans: seq<Span>, inOrder: seq<Span>, replacement: Span -> Text)
    requires Valid(source) && forall s :: s in spans ==> Valid(replacement(s))
    requires multiset(spans) == multiset(inOrder) && Apart(inOrder) && Between(source, inOrder, 0, |source|)
    ensures SplicedAll(source, SortBy(LaterFirst, spans), replacement)
            == Interleaved(source, inOrder, replacement, 0, |source|)
  {
    hide Valid, Spliced, SplicedAll, SortBy, Interleaved, Between, Apart;
    SortedBackwards(spans, inOrder);
    assert Backwards(Backwards(inOrder)) == inOrder;
    ListedEdit(source, spans, replacement);
  }

  lemma {:induction false} NothingValid()
    ensures Valid([])
  {
  }

  lemma {:induction false} EndIsBoundary(source: Text)
    ensures Boundary(source, |source|)
  {
  }

  /** An insertion and a replacement at one place, in any text. With the insertion listed last the inserted
      text stands in front of the replaced one. Listed first it is inserted first, and the replacement then
      takes its bytes, as many as it was to take of the text, before any of the text. */
  lemma {:induction false} EqualStarts(source: Text, at: nat, end: nat, replacement: Span -> Text)
    requires at < end <= |source| && Boundary(source, at) && Boundary(source, end)
    requires Valid(source) && Valid(replacement(Span(at, at))) && Valid(replacement(Span(at, end)))
    ensures var inserted, replaced := replacement(Span(at, at)), replacement(Span(at, end));
      SplicedAll(source, SortBy(LaterFirst, [Span(at, end), Span(at, at)]), replacement)
      == source[..at] + inserted + replaced + source[end..]
    ensures var inserted, replaced := replacement(Span(at, at)), replacement(Span(at, end));
      var text := source[..at] + inserted + source[at..];
      && at <= FloorBoundary(text, end)
      && SplicedAll(source, SortBy(LaterFirst, [Span(at, at), Span(at, end)]), replacement)
         == source[..at] + replaced + text[FloorBoundary(text, end)..]
  {
    hide Valid, Spliced, Boundary, FloorBoundary;
    var insert, replace := Span(at, at), Span(at, end);
    var inserted, replaced := replacement(insert), replacement(replace);
    var one, other := [insert, replace], [replace, insert];
    assert one[1..] == [replace] && other[1..] == [insert] && [replace][1..] == [] && [insert][1..] == [];
    assert SortBy(LaterFirst, [replace]) == [replace] && SortBy(LaterFirst, [insert]) == [insert];
    assert SortBy(LaterFirst, one) == one && SortBy(LaterFirst, other) == other;
    InsertedThenReplaced(source, at, end, inserted, replaced);
    ReplacedThenInserted(source, at, end, inserted, replaced);
    TwoSplices(source, insert, replace, replacement);
    TwoSplices(source, replace, insert, replacement);
  }

  lemma {:induction false} TwoSplices(source: Text, a: Span, b: Span, replacement: Span -> Text)
    ensures SplicedAll(source, [a, b], replacement) == Spliced(Spliced(source, a, replacement(a)), b, replacement(b))
  {
    hide Spliced;
    assert [a, b][1..] == [b] && [b][1..] == [];
    var once := Spliced(source, a, replacement(a));
    assert SplicedAll(once, [b], replacement) == SplicedAll(Spliced(once, b, replacement(b)), [], replacement);
  }

  lemma {:induction false} ReplacedThenInserted(source: Text, at: nat, end: nat, inserted: Text, replaced: Text)
    requires at < end <= |source| && Boundary(source, at) && Boundary(source, end)
    requires Valid(source) && Valid(inserted) && Valid(replaced)
    ensures Spliced(Spliced(source, Span(at, end), replaced), Span(at, at), inserted)
            == source[..at] + inserted + replaced + source[end..]
  {
    hide Valid;
    var text := Spliced(source, Span(at, end), replaced);
    assert text == source[..at] + (replaced + source[end..]);
    ValidSplit(source, end);
    ValidConcat(replaced, source[end..]);
    StillBoundary(source, at, replaced + source[end..], at);
  }

  lemma {:induction false} InsertedThenReplaced(source: Text, at: nat, end: nat, inserted: Text, replaced: Text)
    requires at < end <= |source| && Boundary(source, at) && Valid(source) && Valid(inserted)
    ensures var text := source[..at] + inserted + source[at..];
      && at <= FloorBoundary(text, end)
      && Spliced(Spliced(source, Span(at, at), inserted), Span(at, end), replaced)
         == source[..at] + replaced + text[FloorBoundary(text, end)..]
  {
    hide Valid;
    var text := Spliced(source, Span(at, at), inserted);
    assert text == source[..at] + inserted + source[at..];
    assert text == source[..at] + (inserted + source[at..]);
    ValidSplit(source, at);
    ValidConcat(inserted, source[at..]);
    StillBoundary(source, at, inserted + source[at..], at);
  }

  /** So the listing order shows: a letter, an insertion before it and a replacement of it. */
  lemma {:induction false} EqualStartsDependOnOrder(replacement: Span -> Text)
    requires replacement(Span(0, 0)) == [0x78] && replacement(Span(0, 1)) == [0x79]
    ensures SplicedAll([0x61], SortBy(LaterFirst, [Span(0, 0), Span(0, 1)]), replacement) == [0x79, 0x61]
    ensures SplicedAll([0x61], SortBy(LaterFirst, [Span(0, 1), Span(0, 0)]), replacement) == [0x78, 0x79]
  {
    EqualStarts([0x61], 0, 1, replacement);
  }

  // ---------------------------------------------------------------- whole lines

  predicate Blank(b: Byte) {
    b == 0x20 || b == 0x09 || b == 0x0A || b == 0x0C || b == 0x0D
  }

  /** Bytes `from..to` are spaces, tabs, form feeds and carriage returns: blanks, none of them a line break. */
  predicate BlankRest(s: Text, from: nat, to: nat) {
    from <= to <= |s| && forall i :: from <= i < to ==> s[i] == 0x20 || s[i] == 0x09 || s[i] == 0x0C || s[i] == 0x0D
  }

  /** A line starts at `i`, and only blanks lie between it and `at`. */
  predicate LineStartsAt(s: Text, i: nat, at: nat) {
    BlankRest(s, i, at) && (i == 0 || s[i - 1] == 0x0A)
  }

  /** The line of `at` ends at `i`, with only blanks in between. */
  predicate LineEndsAt(s: Text, at: nat, i: nat) {
    BlankRest(s, at, i) && (i == |s| || s[i] == 0x0A)
  }

  /** Widen a span to whole lines, each side on its own: back to the start of its line if only blanks
      precede it there, and past the end of its line if only blanks follow it; a side that shares its line
      with other text stays where it is. */
  method ExpandToWholeLines(s: Text, span: Span) returns (r: Span)
    ensures var at := if span.startByte <= |s| then span.startByte else |s|;
            if exists i: nat :: LineStartsAt(s, i, at) then LineStartsAt(s, r.startByte, at)
            else r.startByte == span.startByte
    ensures var at := if span.endByte <= |s| then span.endByte else |s|;
            if exists i: nat :: LineEndsAt(s, at, i)
            then exists i: nat :: LineEndsAt(s, at, i) && r.endByte == if i < |s| then i + 1 else i
            else r.endByte == span.endByte
  {
    var start := WidenedStart(s, span.startByte);
    var end := WidenedEnd(s, span.endByte);
    r := Span(start, end);
  }

  method WidenedStart(s: Text, byte: nat) returns (start: nat)
    ensures var at := if byte <= |s| then byte else |s|;
            if exists i: nat :: LineStartsAt(s, i, at) then LineStartsAt(s, start, at) else start == byte
  {
    start := if byte <= |s| then byte else |s|;
    ghost var from := start;
    while start > 0 && s[start - 1] != 0x0A
      invariant BlankRest(s, start, from)
    {
      if !Blank(s[start - 1]) {
        assert forall i: nat :: !LineStartsAt(s, i, from);
        return byte;
      }
      start := start - 1;
    }
    assert LineStartsAt(s, start, from);
  }

  method WidenedEnd(s: Text, byte: nat) returns (end: nat)
    ensures var at := if byte <= |s| then byte else |s|;
            if exists i: nat :: LineEndsAt(s, at, i)
            then exists i: nat :: LineEndsAt(s, at, i) && end == if i < |s| then i + 1 else i
            else end == byte
  {
    end := if byte <= |s| then byte else |s|;
    ghost var to := end;
    while end < |s| && s[end] != 0x0A
      invariant BlankRest(s, to, end)
    {
      if !Blank(s[end]) {
        assert forall i: nat :: !LineEndsAt(s, to, i);
        return byte;
      }
      end := end + 1;
    }
    assert LineEndsAt(s, to, end);
    if end < |s| && s[end] == 0x0A {
      end := end + 1;
    }
  }
}
