/** Rendering one candidate at a fidelity level within a token target, by dropping whole lines or whole
    symbols and never cutting through one. The token counter is a parameter about which nothing is
    assumed. */
module Compress {
  import opened Options
  import opened Sequences

  type Counter = string -> nat

  datatype Level = Full | Outline | Signature | Reference {
    function Rank(): nat {
      match this
      case Full => 0
      case Outline => 1
      case Signature => 2
      case Reference => 3
    }
  }

  /** Every level from full fidelity down. */
  const LADDER: seq<Level> := [Full, Outline, Signature, Reference]

  datatype Symbol = Symbol(symbolPath: string, signature: string, doc: Option<string>, startLine: nat,
                           body: string, relevance: int)

  datatype Content =
    | Text(text: string)
    | Source(path: string, header: Option<string>, symbols: seq<Symbol>)

  datatype Rendered = Rendered(text: string, tokens: nat, level: Level, droppedUnits: nat, truncated: bool)

  // ---------------------------------------------------------------- lines

  /** One past the first line break, or the length of the text. */
  function FirstBreak(t: string): (n: nat)
    ensures n <= |t| && (t != [] ==> n > 0)
    ensures forall i :: 0 <= i < n - 1 ==> t[i] != '\n'
    ensures n < |t| ==> t[n - 1] == '\n'
  {
    if t == [] then 0
    else if t[0] == '\n' then 1
    else 1 + FirstBreak(t[1..])
  }

  /** The lines of a text, each with its line break. */
  function Lines(t: string): (lines: seq<string>)
    ensures Flatten(lines) == t
    ensures forall i :: 0 <= i < |lines| ==> lines[i] != []
    ensures forall i :: 0 <= i < |lines| - 1 ==> lines[i][|lines[i]| - 1] == '\n'
    decreases |t|
  {
    if t == [] then []
    else
      var n := FirstBreak(t);
      var rest := Lines(t[n..]);
      assert ([t[..n]] + rest)[1..] == rest;
      assert t[n..] != [] <==> rest != [];
      [t[..n]] + rest
  }

  predicate IsSpace(c: char) {
    || '\t' <= c <= '\r' || c == ' ' || c == '\U{85}' || c == '\U{A0}' || c == '\U{1680}'
    || '\U{2000}' <= c <= '\U{200A}' || c == '\U{2028}' || c == '\U{2029}' || c == '\U{202F}'
    || c == '\U{205F}' || c == '\U{3000}'
  }

  /** The characters with the Unicode property White_Space. */
  lemma {:induction false} SpacesAre(c: char)
    ensures var spaces := {0x9, 0xA, 0xB, 0xC, 0xD, 0x20, 0x85, 0xA0, 0x1680, 0x2000, 0x2001, 0x2002, 0x2003, 0x2004,
                           0x2005, 0x2006, 0x2007, 0x2008, 0x2009, 0x200A, 0x2028, 0x2029, 0x202F, 0x205F, 0x3000};
      IsSpace(c) <==> c as int in spaces
  {
    assert c == c as int as char;
  }

  /** The text without the blanks at its end. */
  function TrimEnd(t: string): (r: string)
    ensures r <= t && (r == "" || !IsSpace(r[|r| - 1]))
    ensures forall i :: |r| <= i < |t| ==> IsSpace(t[i])
  {
    if t == [] || !IsSpace(t[|t| - 1]) then t else TrimEnd(t[..|t| - 1])
  }

  /** The first line without its line break, if there is a line. */
  function FirstLine(t: string): (r: Option<string>)
    ensures r.None? <==> t == ""
    ensures r.Some? ==> r.value <= t && '\n' !in r.value
    ensures r.Some? ==>
      var rest := t[|r.value|..];
      || rest == ""
      || (rest[0] == '\n' && (r.value == "" || r.value[|r.value| - 1] != '\r'))
      || (|rest| > 1 && rest[0] == '\r' && rest[1] == '\n')
  {
    if t == [] then None
    else
      var line := t[..FirstBreak(t)];
      var bare := if line[|line| - 1] == '\n' then line[..|line| - 1] else line;
      Some(if bare != line && bare != [] && bare[|bare| - 1] == '\r' then bare[..|bare| - 1] else bare)
  }

  function WithNewline(t: string): string {
    if t != [] && t[|t| - 1] == '\n' then t else t + "\n"
  }

  predicate IsDigit(c: char) {
    '0' <= c <= '9'
  }

  /** The number some digits stand for. */
  function Number(digits: string): nat
    requires forall i :: 0 <= i < |digits| ==> IsDigit(digits[i])
  {
    if digits == "" then 0
    else
      assert IsDigit(digits[|digits| - 1]);
      10 * Number(digits[..|digits| - 1]) + (digits[|digits| - 1] as int - '0' as int)
  }

  /** The digits of a number, without leading zeros. */
  function Digits(n: nat): (r: string)
    ensures r != "" && forall i :: 0 <= i < |r| ==> IsDigit(r[i])
    ensures Number(r) == n && (r[0] == '0' ==> r == "0")
  {
    if n < 10 then ["0123456789"[n]]
    else
      var more := Digits(n / 10);
      var r := more + ["0123456789"[n % 10]];
      assert r[..|r| - 1] == more;
      r
  }

  function Joined(names: seq<string>): string {
    if names == [] then ""
    else if |names| == 1 then names[0]
    else Joined(names[..|names| - 1]) + ", " + names[|names| - 1]
  }

  /** Names joined are joined in order, with a comma between any two. */
  lemma {:induction false} JoinedInOrder(a: seq<string>, b: seq<string>)
    requires a != [] && b != []
    ensures Joined(a + b) == Joined(a) + ", " + Joined(b)
    ensures |b| == 1 ==> Joined(b) == b[0]
  {
    var whole := a + b;
    assert whole[..|whole| - 1] == a + b[..|b| - 1];
    if |b| == 1 {
      assert b[..0] == [] && a + [] == a;
    } else {
      JoinedInOrder(a, b[..|b| - 1]);
    }
  }

  // ---------------------------------------------------------------- text

  const MARKER: string := "\n[\U{2026} truncated to fit the context budget]"
  const TEXT_REFERENCE: string := "[reference only \U{2014} omitted to fit the context budget]"

  /** What the first `kept` lines cost with the marker after them. */
  function TruncatedCost(lines: seq<string>, kept: nat, count: Counter): nat
    requires kept <= |lines|
  {
    count(Flatten(lines[..kept])) + count(MARKER)
  }

  /** The most lines, short of all of them, that fit the target; none if not even one does. */
  function MostLines(lines: seq<string>, target: nat, count: Counter): (kept: nat)
    ensures kept < |lines| || kept == 0
    ensures kept > 0 ==> TruncatedCost(lines, kept, count) <= target
    ensures forall k :: kept < k < |lines| ==> TruncatedCost(lines, k, count) > target
  {
    MostLinesBelow(lines, |lines|, target, count)
  }

  function MostLinesBelow(lines: seq<string>, bound: nat, target: nat, count: Counter): (kept: nat)
    requires bound <= |lines|
    ensures kept < bound || kept == 0
    ensures kept > 0 ==> TruncatedCost(lines, kept, count) <= target
    ensures forall k :: kept < k < bound ==> TruncatedCost(lines, k, count) > target
  {
    if bound <= 1 then 0
    else if TruncatedCost(lines, bound - 1, count) <= target then bound - 1
    else MostLinesBelow(lines, bound - 1, target, count)
  }

  function TextRendering(text: string, level: Level, target: nat, count: Counter): Rendered {
    if level.Reference? then Rendered(TEXT_REFERENCE, count(TEXT_REFERENCE), level, 0, true)
    else if count(text) <= target then Rendered(text, count(text), level, 0, false)
    else
      var lines := Lines(text);
      var kept := MostLines(lines, target, count);
      if kept > 0 then
        Rendered(Flatten(lines[..kept]) + MARKER, TruncatedCost(lines, kept, count), level, |lines| - kept, true)
      else
        var least := (if lines == [] then "" else lines[0]) + MARKER;
        Rendered(least, count(least), level, if lines == [] then 0 else |lines| - 1, true)
  }

  method RenderText(text: string, level: Level, target: nat, count: Counter) returns (r: Rendered)
    ensures r == TextRendering(text, level, target, count)
  {
    if level.Reference? {
      return Rendered(TEXT_REFERENCE, count(TEXT_REFERENCE), level, 0, true);
    }
    var fullTokens := count(text);
    if fullTokens <= target {
      return Rendered(text, fullTokens, level, 0, false);
    }
    var markerTokens := count(MARKER);
    var lines := Lines(text);
    var kept: nat := |lines|;
    while kept > 1
      invariant kept <= |lines|
      invariant MostLines(lines, target, count) == MostLinesBelow(lines, kept, target, count)
    {
      kept := kept - 1;
      var candidate := Flatten(lines[..kept]);
      var tokens := count(candidate) + markerTokens;
      if tokens <= target {
        return Rendered(candidate + MARKER, tokens, level, |lines| - kept, true);
      }
    }
    var least := (if lines == [] then "" else lines[0]) + MARKER;
    r := Rendered(least, count(least), level, if lines == [] then 0 else |lines| - 1, true);
  }

  /** A text above reference level is kept whole, or cut after whole lines: it is a prefix of the text
      that ends in a line break, then the marker. The lines counted as dropped are the lines missing; at
      least one line is kept if there is any; and no longer whole-line prefix would have fitted. */
  lemma {:induction false} TextIsCutAtLines(text: string, level: Level, target: nat, count: Counter)
    requires !level.Reference?
    ensures var r := TextRendering(text, level, target, count); var lines := Lines(text);
      && (r.truncated <==> count(text) > target)
      && (!r.truncated ==> r.text == text && r.tokens == count(text) && r.droppedUnits == 0)
      && r.level == level
      && (r.truncated ==>
            && r.droppedUnits <= |lines| && (text != [] ==> r.droppedUnits < |lines|)
            && var kept := |lines| - r.droppedUnits;
               && r.text == Flatten(lines[..kept]) + "\n[\U{2026} truncated to fit the context budget]"
               && Flatten(lines[..kept]) <= text
               && (0 < kept < |lines| ==> Flatten(lines[..kept])[|Flatten(lines[..kept])| - 1] == '\n')
               && (forall k :: kept < k < |lines| ==> count(Flatten(lines[..k])) + count(MARKER) > target)
               && (r.tokens == count(Flatten(lines[..kept])) + count(MARKER) <= target || (kept <= 1 && r.tokens == count(r.text))))
  {
    hide Lines, Flatten, MostLines;
    if count(text) > target {
      var lines := Lines(text);
      NoLines(text);
      if text == [] {
        FlattenNone();
        assert lines[..0] == [];
      } else {
        var kept := if MostLines(lines, target, count) > 0 then MostLines(lines, target, count) else 1;
        PrefixOfLines(lines, kept);
        FirstOnly(lines);
        forall k | kept < k < |lines|
          ensures count(Flatten(lines[..k])) + count(MARKER) > target
        {
          assert TruncatedCost(lines, k, count) > target;
        }
      }
    }
  }

  /** What is emitted when not even one line fits with the marker. */
  function Least(text: string): string {
    (if Lines(text) == [] then "" else Lines(text)[0]) + MARKER
  }

  /** A rendered text is charged no more than the same level at full size if and only if it fits the
      target, or whole lines of it do with the marker, or its first line and the marker are no dearer
      than the text. (A reference is the same at every target.) */
  lemma {:induction false} TextNeverLargerIff(text: string, level: Level, target: nat, count: Counter)
    ensures TextRendering(text, level, target, count).tokens <= TextRendering(text, level, count(text), count).tokens <==>
      || level.Reference?
      || count(text) <= target
      || (exists k :: 0 < k < |Lines(text)| && TruncatedCost(Lines(text), k, count) <= target)
      || count(Least(text)) <= count(text)
  {
    hide Lines, Flatten, MostLines, TruncatedCost;
    var lines := Lines(text);
    if !level.Reference? && count(text) > target {
      var kept := MostLines(lines, target, count);
      if kept > 0 {
        assert 0 < kept < |Lines(text)| && TruncatedCost(Lines(text), kept, count) <= target;
        assert TextRendering(text, level, target, count).tokens == TruncatedCost(lines, kept, count);
        assert TextRendering(text, level, count(text), count).tokens == count(text);
      } else {
        assert TextRendering(text, level, target, count).tokens == count(Least(text));
      }
    }
  }

  /** A text of one character, counted in characters, is larger with the marker than without. */
  lemma {:induction false} MarkerMakesLarger(level: Level)
    requires !level.Reference?
    ensures var count: Counter := (s: string) => |s|;
      TextRendering("x", level, 0, count).tokens > TextRendering("x", level, count("x"), count).tokens
  {
    hide Lines, Flatten, MostLines;
    var count: Counter := (s: string) => |s|;
    assert |MARKER| > 1;
    TextIsCutAtLines("x", level, 0, count);
    NoLines("x");
    ManyLines("x");
  }

  lemma {:induction false} ManyLines(text: string)
    ensures |Lines(text)| <= |text|
    decreases |text|
  {
    if text != [] {
      ManyLines(text[FirstBreak(text)..]);
    }
  }

  lemma {:induction false} NoLines(text: string)
    ensures Lines(text) == [] <==> text == []
  {
  }

  lemma {:induction false} FirstOnly(lines: seq<string>)
    requires lines != []
    ensures Flatten(lines[..1]) == lines[0]
  {
    assert lines[..1] == [] + [lines[0]];
    FlattenAppend([], lines[0]);
  }

  lemma {:induction false} PrefixOfLines(lines: seq<string>, kept: nat)
    requires 0 < kept <= |lines| && forall i :: 0 <= i < |lines| ==> lines[i] != []
    ensures var prefix := Flatten(lines[..kept]);
      prefix <= Flatten(lines) && prefix != [] && prefix[|prefix| - 1] == lines[kept - 1][|lines[kept - 1]| - 1]
  {
    assert lines == lines[..kept] + lines[kept..];
    FlattenConcat(lines[..kept], lines[kept..]);
    assert lines[..kept] == lines[..kept - 1] + [lines[kept - 1]];
    FlattenAppend(lines[..kept - 1], lines[kept - 1]);
  }

  // ---------------------------------------------------------------- source

  /** Most relevant first, then by position. */
  predicate MoreRelevant(a: Symbol, b: Symbol) {
    a.relevance > b.relevance || (a.relevance == b.relevance && a.startLine <= b.startLine)
  }

  function SourceReference(path: string, symbols: seq<Symbol>): string {
    var names := seq(|symbols|, i requires 0 <= i < |symbols| => symbols[i].symbolPath);
    path + ": " + (if names == [] then "no indexed symbols" else Joined(names))
    + " (bodies omitted to fit the context budget)"
  }

  function HeaderLine(path: string, header: Option<string>): string {
    match header
    case Some(h) => "// " + path + "\n" + TrimEnd(h) + "\n"
    case None => "// " + path + "\n"
  }

  function Piece(s: Symbol, level: Level): string
    requires !level.Reference?
  {
    match level
    case Full => (if s.doc.Some? then TrimEnd(s.doc.value) + "\n" else "") + WithNewline(s.body)
    case Outline =>
      (if s.doc.Some? && FirstLine(s.doc.value).Some? then "// " + FirstLine(s.doc.value).value + "\n" else "")
      + TrimEnd(s.signature) + "\n"
    case Signature => TrimEnd(s.signature) + "\n"
  }

  function Pieces(symbols: seq<Symbol>, level: Level): (pieces: seq<string>)
    requires !level.Reference?
    ensures |pieces| == |symbols|
  {
    seq(|symbols|, i requires 0 <= i < |symbols| => Piece(symbols[i], level))
  }

  /** The tokens of the header and the first `kept` pieces, each counted on its own. */
  function Used(headerTokens: nat, pieces: seq<string>, kept: nat, count: Counter): nat
    requires kept <= |pieces|
  {
    if kept == 0 then headerTokens else Used(headerTokens, pieces, kept - 1, count) + count(pieces[kept - 1])
  }

  function OmittedNote(n: nat): string {
    if n == 0 then "" else "// (+" + Digits(n) + " more symbol(s) omitted to fit the context budget)\n"
  }

  /** The loop stops after `kept` pieces: there are no more, or they fill the target, or the next one
      would overrun it. The first piece is kept in any case. */
  predicate StopsAt(headerTokens: nat, pieces: seq<string>, kept: nat, target: nat, count: Counter)
    requires kept <= |pieces|
  {
    || kept == |pieces|
    || (kept > 0 && (|| Used(headerTokens, pieces, kept, count) >= target
                     || Used(headerTokens, pieces, kept + 1, count) > target))
  }

  function KeptPieces(headerTokens: nat, pieces: seq<string>, from: nat, target: nat, count: Counter): (kept: nat)
    requires from <= |pieces|
    ensures from <= kept <= |pieces| && StopsAt(headerTokens, pieces, kept, target, count)
    ensures forall k :: from <= k < kept ==> !StopsAt(headerTokens, pieces, k, target, count)
    decreases |pieces| - from
  {
    if StopsAt(headerTokens, pieces, from, target, count) then from
    else KeptPieces(headerTokens, pieces, from + 1, target, count)
  }

  function SourceRendering(path: string, header: Option<string>, symbols: seq<Symbol>, level: Level,
                           target: nat, count: Counter): Rendered {
    if level.Reference? then
      Rendered(SourceReference(path, symbols), count(SourceReference(path, symbols)), level, 0, true)
    else
      var pieces := Pieces(SortBy(MoreRelevant, symbols), level);
      var headerLine := HeaderLine(path, header);
      var kept := KeptPieces(count(headerLine), pieces, 0, target, count);
      var dropped := |pieces| - kept;
      var text := headerLine + Flatten(pieces[..kept]) + OmittedNote(dropped);
      Rendered(text, count(text), level, dropped, dropped > 0)
  }

  method RenderSource(path: string, header: Option<string>, symbols: seq<Symbol>, level: Level,
                      target: nat, count: Counter) returns (r: Rendered)
    ensures r == SourceRendering(path, header, symbols, level, target, count)
  {
    hide SortBy, Flatten, KeptPieces, HeaderLine, Piece, SourceReference;
    if level.Reference? {
      return Rendered(SourceReference(path, symbols), count(SourceReference(path, symbols)), level, 0, true);
    }
    var ordered := SortBy(MoreRelevant, symbols);
    var headerLine := HeaderLine(path, header);
    var body, kept := KeepWhileFitting(ordered, level, count(headerLine), target, count);
    var dropped := |ordered| - kept;
    var text := headerLine + body;
    if dropped > 0 {
      text := text + OmittedNote(dropped);
    }
    assert text == headerLine + body + OmittedNote(dropped);
    r := Rendered(text, count(text), level, dropped, dropped > 0);
  }

  method KeepWhileFitting(ordered: seq<Symbol>, level: Level, headerTokens: nat, target: nat, count: Counter)
    returns (body: string, kept: nat)
    requires !level.Reference?
    ensures var pieces := Pieces(ordered, level);
      kept == KeptPieces(headerTokens, pieces, 0, target, count) && body == Flatten(pieces[..kept])
  {
    hide Flatten, Piece;
    ghost var pieces := Pieces(ordered, level);
    body := "";
    FlattenNone();
    var used := headerTokens;
    kept := 0;
    while kept < |ordered|
      invariant kept <= |ordered|
      invariant body == Flatten(pieces[..kept]) && used == Used(headerTokens, pieces, kept, count)
      invariant forall k :: 0 <= k < kept ==> !StopsAt(headerTokens, pieces, k, target, count)
      invariant kept > 0 && kept < |ordered| ==> used < target
    {
      var piece := Piece(ordered[kept], level);
      var pieceTokens := count(piece);
      assert Used(headerTokens, pieces, kept + 1, count) == used + pieceTokens;
      if kept > 0 && used + pieceTokens > target {
        break;
      }
      assert pieces[..kept + 1] == pieces[..kept] + [piece];
      FlattenAppend(pieces[..kept], piece);
      body := body + piece;
      used := used + pieceTokens;
      kept := kept + 1;
      assert body == Flatten(pieces[..kept]);
      if used >= target {
        break;
      }
    }
    assert StopsAt(headerTokens, pieces, kept, target, count);
  }

  lemma {:induction false} FlattenNone()
    ensures Flatten<char>([]) == []
  {
  }

  // ---------------------------------------------------------------- any candidate

  function Rendering(c: Content, level: Level, target: nat, count: Counter): Rendered {
    match c
    case Text(text) => TextRendering(text, level, target, count)
    case Source(path, header, symbols) => SourceRendering(path, header, symbols, level, target, count)
  }

  method Render(c: Content, level: Level, target: nat, count: Counter) returns (r: Rendered)
    ensures r == Rendering(c, level, target, count)
  {
    match c
    case Text(text) => r := RenderText(text, level, target, count);
    case Source(path, header, symbols) => r := RenderSource(path, header, symbols, level, target, count);
  }

  /** How many pieces are kept: at least one if there is any; with more than one, those kept fit the
      target; and a further one was only left out because the target was full or it would overrun it. */
  lemma {:induction false} KeptFits(headerTokens: nat, pieces: seq<string>, target: nat, count: Counter)
    ensures var kept := KeptPieces(headerTokens, pieces, 0, target, count);
      && (pieces != [] ==> kept > 0)
      && (kept > 1 ==> Used(headerTokens, pieces, kept, count) <= target)
      && (kept < |pieces| ==> || Used(headerTokens, pieces, kept, count) >= target
                              || Used(headerTokens, pieces, kept + 1, count) > target)
  {
    var kept := KeptPieces(headerTokens, pieces, 0, target, count);
    if kept > 1 {
      assert !StopsAt(headerTokens, pieces, kept - 1, target, count);
    }
  }

  /** Above reference level a source keeps whole symbols: the most relevant ones, and of them as many as
      `KeptFits` says. */
  lemma {:induction false} SourceKeepsMostRelevant(path: string, header: Option<string>, symbols: seq<Symbol>,
                                                   level: Level, target: nat, count: Counter)
    requires !level.Reference?
    ensures var ordered := SortBy(MoreRelevant, symbols);
      && multiset(ordered) == multiset(symbols) && Sorted(MoreRelevant, ordered)
      && var r := SourceRendering(path, header, symbols, level, target, count);
         var pieces := Pieces(ordered, level); var h := HeaderLine(path, header);
         && r.droppedUnits <= |pieces|
         && var kept := |pieces| - r.droppedUnits;
            && kept == KeptPieces(count(h), pieces, 0, target, count)
            && r.text == h + Flatten(pieces[..kept]) + OmittedNote(r.droppedUnits)
            && r.tokens == count(r.text)
            && (symbols != [] ==> kept > 0)
  {
    hide SortBy, Sorted, Flatten, KeptPieces, HeaderLine, Piece, Pieces, OmittedNote, Used;
    SortPermutes(MoreRelevant, symbols);
    SortSorts(MoreRelevant, symbols);
    SameElements(SortBy(MoreRelevant, symbols), symbols);
    KeptFits(count(HeaderLine(path, header)), Pieces(SortBy(MoreRelevant, symbols), level), target, count);
  }

  // ---------------------------------------------------------------- what a rendered source shows

  /** `part` stands somewhere in `text`. */
  ghost predicate Shows(text: string, part: string) {
    exists before: string, after: string :: text == before + part + after
  }

  lemma {:induction false} ShownBetween(before: string, part: string, after: string)
    ensures Shows(before + part + after, part)
  {
  }

  lemma {:induction false} ShownWithin(text: string, piece: string, part: string)
    requires Shows(text, piece) && Shows(piece, part)
    ensures Shows(text, part)
  {
    var before: string, after: string :| text == before + piece + after;
    var front: string, back: string :| piece == front + part + back;
    assert text == (before + front) + part + (back + after);
  }

  lemma {:induction false} PieceShown(pieces: seq<string>, i: nat)
    requires i < |pieces|
    ensures Shows(Flatten(pieces), pieces[i])
  {
    hide Flatten, Shows;
    var before, after := pieces[..i], pieces[i + 1..];
    assert pieces == (before + [pieces[i]]) + after;
    FlattenConcat(before + [pieces[i]], after);
    FlattenAppend(before, pieces[i]);
    ShownBetween(Flatten(before), pieces[i], Flatten(after));
  }

  /** What a piece shows of its symbol: in full its documentation and last its body, ending in a line break; in outline its signature under the
      first line of its documentation, and as a signature that alone. */
  lemma {:induction false} PieceShows(s: Symbol, level: Level)
    requires !level.Reference?
    ensures level.Full? ==> Shows(Piece(s, level), s.body) && (s.doc.Some? ==> Shows(Piece(s, level), TrimEnd(s.doc.value)))
    ensures !level.Full? ==> Shows(Piece(s, level), TrimEnd(s.signature) + "\n")
    ensures level.Outline? && s.doc.Some? && FirstLine(s.doc.value).Some? ==>
              Shows(Piece(s, level), "// " + FirstLine(s.doc.value).value + "\n" + TrimEnd(s.signature))
    ensures level.Signature? ==> Piece(s, level) == TrimEnd(s.signature) + "\n"
    ensures level.Full? ==> var ending := if s.body != "" && s.body[|s.body| - 1] == '\n' then s.body else s.body + "\n";
              |ending| <= |Piece(s, level)| && Piece(s, level)[|Piece(s, level)| - |ending|..] == ending
  {
    hide TrimEnd, FirstLine, Shows;
    var signature := TrimEnd(s.signature);
    if level.Full? {
      var doc := if s.doc.Some? then TrimEnd(s.doc.value) else "";
      var head, body := if s.doc.Some? then doc + "\n" else "", WithNewline(s.body);
      var tail := body[|s.body|..];
      assert Piece(s, level) == head + body == head + s.body + tail;
      ShownBetween(head, s.body, tail);
      if s.doc.Some? {
        assert Piece(s, level) == "" + doc + ("\n" + body);
        ShownBetween("", doc, "\n" + body);
      }
    } else {
      var head := if level.Outline? && s.doc.Some? && FirstLine(s.doc.value).Some? then "// " + FirstLine(s.doc.value).value + "\n" else "";
      assert Piece(s, level) == head + (signature + "\n") + "" == "" + (head + signature) + "\n";
      ShownBetween(head, signature + "\n", "");
      ShownBetween("", head + signature, "\n");
    }
  }

  /** The symbols of a source as they are considered: the more relevant first, and of one relevance the one
      that starts further up. */
  lemma {:induction false} ConsideredByRelevance(symbols: seq<Symbol>)
    ensures var ordered := SortBy(MoreRelevant, symbols);
      && multiset(ordered) == multiset(symbols) && |ordered| == |symbols|
      && forall i, j :: 0 <= i < j < |ordered| ==>
           && ordered[i].relevance >= ordered[j].relevance
           && (ordered[i].relevance == ordered[j].relevance ==> ordered[i].startLine <= ordered[j].startLine)
  {
    hide SortBy;
    var ordered := SortBy(MoreRelevant, symbols);
    SortPermutes(MoreRelevant, symbols);
    SortSorts(MoreRelevant, symbols);
    SameElements(ordered, symbols);
    assert forall i, j :: 0 <= i < j < |ordered| ==> MoreRelevant(ordered[i], ordered[j]);
  }

  /** Above reference level a source names its path and shows its header and every symbol it keeps: in full
      with documentation and body, in outline with the documentation's first line and the signature, as a
      signature with that. It keeps all but the `droppedUnits` least relevant ones and says how many they are. */
  lemma {:induction false} SourceShows(path: string, header: Option<string>, symbols: seq<Symbol>, level: Level,
                                       target: nat, count: Counter, i: nat)
    requires !level.Reference?
    requires i + SourceRendering(path, header, symbols, level, target, count).droppedUnits < |symbols|
    ensures |SortBy(MoreRelevant, symbols)| == |symbols|
    ensures var r := SourceRendering(path, header, symbols, level, target, count); var s := SortBy(MoreRelevant, symbols)[i];
      && (level.Full? ==> Shows(r.text, s.body) && (s.doc.Some? ==> Shows(r.text, TrimEnd(s.doc.value))))
      && (!level.Full? ==> Shows(r.text, TrimEnd(s.signature) + "\n"))
      && (level.Outline? && s.doc.Some? && FirstLine(s.doc.value).Some? ==>
            Shows(r.text, "// " + FirstLine(s.doc.value).value + "\n" + TrimEnd(s.signature)))
  {
    hide SortBy, Flatten, KeptPieces, HeaderLine, Piece, OmittedNote, Used, Shows, TrimEnd, FirstLine, SourceRendering;
    ConsideredByRelevance(symbols);
    SourceKeepsMostRelevant(path, header, symbols, level, target, count);
    var r, ordered := SourceRendering(path, header, symbols, level, target, count), SortBy(MoreRelevant, symbols);
    var pieces := Pieces(ordered, level);
    var kept := |symbols| - r.droppedUnits;
    var s := ordered[i];
    PieceShows(s, level);
    PieceShown(pieces[..kept], i);
    var body := Flatten(pieces[..kept]);
    ShownBetween(HeaderLine(path, header), body, OmittedNote(r.droppedUnits));
    ShownWithin(r.text, body, Piece(s, level));
    if level.Full? {
      ShownWithin(r.text, Piece(s, level), s.body);
      if s.doc.Some? {
        ShownWithin(r.text, Piece(s, level), TrimEnd(s.doc.value));
      }
    } else {
      ShownWithin(r.text, Piece(s, level), TrimEnd(s.signature) + "\n");
      if level.Outline? && s.doc.Some? && FirstLine(s.doc.value).Some? {
        ShownWithin(r.text, Piece(s, level), "// " + FirstLine(s.doc.value).value + "\n" + TrimEnd(s.signature));
      }
    }
  }

  /** Around the symbols: the path, the header, and the number of symbols left out, if any are. */
  lemma {:induction false} SourceFrame(path: string, header: Option<string>, symbols: seq<Symbol>, level: Level,
                                       target: nat, count: Counter)
    requires !level.Reference?
    ensures var r := SourceRendering(path, header, symbols, level, target, count);
      && "// " + path + "\n" <= r.text
      && (header.Some? ==> "// " + path + "\n" + TrimEnd(header.value) + "\n" <= r.text)
      && (r.droppedUnits > 0 ==> Shows(r.text, "// (+" + Digits(r.droppedUnits)))
      && (r.truncated <==> r.droppedUnits > 0)
  {
    hide SortBy, Flatten, KeptPieces, Pieces, Used, Shows, OmittedNote, HeaderLine, SourceRendering;
    SourceKeepsMostRelevant(path, header, symbols, level, target, count);
    NoteForRest(path, header, symbols, level, target, count);
    var r := SourceRendering(path, header, symbols, level, target, count);
    var h, note := HeaderLine(path, header), OmittedNote(r.droppedUnits);
    HeaderSays(path, header);
    NoteSays(r.droppedUnits);
    assert h <= r.text;
    if r.droppedUnits > 0 {
      var front := r.text[..|r.text| - |note|];
      assert r.text == front + note + "";
      ShownBetween(front, note, "");
      ShownWithin(r.text, note, "// (+" + Digits(r.droppedUnits));
    }
  }

  lemma {:induction false} HeaderSays(path: string, header: Option<string>)
    ensures "// " + path + "\n" <= HeaderLine(path, header)
    ensures header.Some? ==> HeaderLine(path, header) == "// " + path + "\n" + TrimEnd(header.value) + "\n"
  {
    hide TrimEnd;
  }

  lemma {:induction false} NoteSays(n: nat)
    ensures n > 0 ==> Shows(OmittedNote(n), "// (+" + Digits(n))
    ensures OmittedNote(n) == "" <==> n == 0
  {
    hide Digits, Shows;
    if n > 0 {
      var said, rest := "// (+" + Digits(n), " more symbol(s) omitted to fit the context budget)\n";
      assert OmittedNote(n) == "" + said + rest;
      ShownBetween("", said, rest);
    }
  }

  /** A reference is one text whatever the target, always marked as truncated with nothing counted as dropped;
      of a source it names the path and every symbol, the earlier listed first. */
  lemma {:induction false} ReferenceIs(c: Content, target: nat, count: Counter)
    ensures var r := Rendering(c, Reference, target, count);
      r == Rendering(c, Reference, 0, count) && r.truncated && r.droppedUnits == 0 && r.tokens == count(r.text)
    ensures c.Source? ==> c.path + ": " <= Rendering(c, Reference, target, count).text
    ensures c.Text? ==> Rendering(c, Reference, target, count).text == "[reference only \U{2014} omitted to fit the context budget]"
  {
    hide Lines, MostLines, KeptPieces, SortBy, Flatten, Joined;
  }

  lemma {:induction false} JoinedShows(names: seq<string>, i: nat)
    requires i < |names|
    ensures Shows(Joined(names), names[i])
  {
    hide Shows;
    if |names| == 1 {
      assert names[0] == "" + names[0] + "";
      ShownBetween("", names[0], "");
    } else {
      var last := |names| - 1;
      var front := Joined(names[..last]);
      if i == last {
        assert Joined(names) == (front + ", ") + names[last] + "";
        ShownBetween(front + ", ", names[last], "");
      } else {
        JoinedShows(names[..last], i);
        assert Joined(names) == "" + front + (", " + names[last]);
        ShownBetween("", front, ", " + names[last]);
        ShownWithin(Joined(names), front, names[i]);
      }
    }
  }

  lemma {:induction false} ReferenceNames(path: string, header: Option<string>, symbols: seq<Symbol>, target: nat,
                                          count: Counter, i: nat)
    requires i < |symbols|
    ensures Shows(Rendering(Source(path, header, symbols), Reference, target, count).text, symbols[i].symbolPath)
  {
    hide Joined, Shows;
    var names := seq(|symbols|, i requires 0 <= i < |symbols| => symbols[i].symbolPath);
    JoinedShows(names, i);
    ShownBetween(path + ": ", Joined(names), " (bodies omitted to fit the context budget)");
    ShownWithin(SourceReference(path, symbols), Joined(names), names[i]);
  }

  // ---------------------------------------------------------------- sources against their full size

  lemma {:induction false} UsedGrows(headerTokens: nat, pieces: seq<string>, k: nat, n: nat, count: Counter)
    requires k <= n <= |pieces|
    ensures Used(headerTokens, pieces, k, count) <= Used(headerTokens, pieces, n, count)
  {
    if k < n {
      UsedGrows(headerTokens, pieces, k, n - 1, count);
    }
  }

  /** Everything is kept if and only if there is at most one piece, or all of them fit the target and
      those before the last leave something of it. */
  lemma {:induction false} KeepsAllIff(headerTokens: nat, pieces: seq<string>, target: nat, count: Counter)
    ensures KeptPieces(headerTokens, pieces, 0, target, count) == |pieces| <==>
      |pieces| <= 1 || (&& Used(headerTokens, pieces, |pieces|, count) <= target
                        && Used(headerTokens, pieces, |pieces| - 1, count) < target)
  {
    var n, kept := |pieces|, KeptPieces(headerTokens, pieces, 0, target, count);
    if kept < n {
      UsedGrows(headerTokens, pieces, kept, n - 1, count);
      UsedGrows(headerTokens, pieces, kept + 1, n, count);
    } else if n > 1 {
      assert !StopsAt(headerTokens, pieces, n - 1, target, count);
    }
  }

  /** One token for every `n` characters begun; the repository's counter has n = 4. */
  function PerCharacters(n: nat): (count: Counter)
    requires n > 0
  {
    (s: string) => (|s| + n - 1) / n
  }

  /** A counter that charges no text more than a longer one. */
  ghost predicate ByLength(count: Counter) {
    forall a: string, b: string :: |a| <= |b| ==> count(a) <= count(b)
  }

  lemma {:induction false} QuotientAtMost(x: nat, n: nat, q: nat)
    requires n > 0
    ensures x / n <= q <==> x < n * (q + 1)
  {
    assert x == n * (x / n) + x % n;
    if x / n <= q {
      assert n * (x / n) <= n * q;
    } else {
      assert n * (q + 1) <= n * (x / n);
    }
  }

  /** So many characters fit so many tokens. */
  lemma {:induction false} FitsTokens(s: string, n: nat, tokens: nat)
    requires n > 0
    ensures PerCharacters(n)(s) <= tokens <==> |s| <= n * tokens
  {
    QuotientAtMost(|s| + n - 1, n, tokens);
    assert n * (tokens + 1) == n * tokens + n;
  }

  lemma {:induction false} ChargesByLength(n: nat)
    requires n > 0
    ensures ByLength(PerCharacters(n))
  {
    forall a: string, b: string | |a| <= |b|
      ensures PerCharacters(n)(a) <= PerCharacters(n)(b)
    {
      FitsTokens(b, n, PerCharacters(n)(b));
      FitsTokens(a, n, PerCharacters(n)(b));
    }
  }

  /** A source at one level with nothing left out. */
  function FullSource(path: string, header: Option<string>, symbols: seq<Symbol>, level: Level): string
    requires !level.Reference?
  {
    HeaderLine(path, header) + Flatten(Pieces(SortBy(MoreRelevant, symbols), level))
  }

  /** What a rendering leaves out of it, and the note it puts there instead. */
  function LeftOut(path: string, header: Option<string>, symbols: seq<Symbol>, level: Level, target: nat,
                   count: Counter): (string, string)
    requires !level.Reference?
  {
    var pieces := Pieces(SortBy(MoreRelevant, symbols), level);
    var kept := KeptPieces(count(HeaderLine(path, header)), pieces, 0, target, count);
    (Flatten(pieces[kept..]), OmittedNote(|pieces| - kept))
  }

  /** The rendering is the full source with the one in place of the other, at the end. */
  lemma {:induction false} NoteForRest(path: string, header: Option<string>, symbols: seq<Symbol>, level: Level,
                                       target: nat, count: Counter)
    ensures !level.Reference? ==>
      var r := SourceRendering(path, header, symbols, level, target, count);
      var (rest, note) := LeftOut(path, header, symbols, level, target, count);
      && r.tokens == count(r.text)
      && |r.text| + |rest| == |FullSource(path, header, symbols, level)| + |note|
      && (r.truncated <==> note != "")
  {
    hide SortBy, Flatten, KeptPieces, HeaderLine, Piece, Pieces, Used, Digits;
    if !level.Reference? {
      var pieces := Pieces(SortBy(MoreRelevant, symbols), level);
      var kept := KeptPieces(count(HeaderLine(path, header)), pieces, 0, target, count);
      assert pieces == pieces[..kept] + pieces[kept..];
      FlattenConcat(pieces[..kept], pieces[kept..]);
    }
  }

  /** With any counter that goes by length, a rendered source is charged no more than at full size if the
      note about the omitted symbols is no longer than they are. */
  lemma {:induction false} SourceNeverLarger(path: string, header: Option<string>, symbols: seq<Symbol>,
                                             level: Level, target: nat, count: Counter)
    requires !level.Reference? && ByLength(count)
    requires var (rest, note) := LeftOut(path, header, symbols, level, target, count); |note| <= |rest|
    ensures SourceRendering(path, header, symbols, level, target, count).tokens
            <= count(FullSource(path, header, symbols, level))
  {
    hide SourceRendering, LeftOut, FullSource;
    NoteForRest(path, header, symbols, level, target, count);
  }

  /** With a counter that charges a token for every `n` characters begun - the repository's, for n = 4 - it
      is charged no more if and only if the note is longer than the omitted symbols by no more than what
      the last token of the full source leaves unused. */
  lemma {:induction false} SourceNeverLargerIff(path: string, header: Option<string>, symbols: seq<Symbol>,
                                                level: Level, target: nat, n: nat)
    requires !level.Reference? && n > 0
    ensures var count := PerCharacters(n); var full := FullSource(path, header, symbols, level);
      var (rest, note) := LeftOut(path, header, symbols, level, target, count);
      && |full| <= n * count(full) < |full| + n
      && (SourceRendering(path, header, symbols, level, target, count).tokens <= count(full) <==>
            |note| <= |rest| + (n * count(full) - |full|))
  {
    hide SourceRendering, LeftOut, FullSource, PerCharacters;
    var count, full := PerCharacters(n), FullSource(path, header, symbols, level);
    NoteForRest(path, header, symbols, level, target, count);
    FitsTokens(SourceRendering(path, header, symbols, level, target, count).text, n, count(full));
    UnusedInLast(full, n);
  }

  lemma {:induction false} UnusedInLast(s: string, n: nat)
    requires n > 0
    ensures |s| <= n * PerCharacters(n)(s) < |s| + n
  {
    var q := PerCharacters(n)(s);
    FitsTokens(s, n, q);
    if q > 0 {
      FitsTokens(s, n, q - 1);
      assert n * q == n * (q - 1) + n;
    }
  }

  /** Two symbols of one character each. */
  const SHORT: seq<Symbol> := [Symbol("a", "", None, 0, "x", 0), Symbol("b", "", None, 1, "y", 0)]

  lemma {:induction false} ShortPieces(level: Level)
    requires !level.Reference?
    ensures SortBy(MoreRelevant, SHORT) == SHORT
    ensures Pieces(SHORT, level) == [Piece(SHORT[0], level), Piece(SHORT[1], level)]
    ensures |Piece(SHORT[0], level)| == |Piece(SHORT[1], level)| == if level.Full? then 2 else 1
  {
    var b := SHORT[1..];
    assert b == [SHORT[1]] && b[1..] == [];
    assert SortBy(MoreRelevant, b) == b;
    assert TrimEnd("") == "";
  }

  /** Counted piece by piece they come to four tokens, counted whole, to three: with a target of three or
      less the second is left out at every level that shows symbols, for a note of more than twelve tokens. */
  lemma {:induction false} ShortIsCut(level: Level, target: nat)
    requires !level.Reference? && target <= 3
    ensures var count := PerCharacters(4); var r := SourceRendering("p", None, SHORT, level, target, count);
      && count(FullSource("p", None, SHORT, level)) <= 3 && (level.Full? ==> count(FullSource("p", None, SHORT, level)) == 3)
      && r.droppedUnits == 1 && r.tokens > 12
  {
    hide SortBy, Flatten, KeptPieces, Piece, Digits, Used;
    var count: Counter := PerCharacters(4);
    var pieces := Pieces(SHORT, level);
    ShortPieces(level);
    var h := HeaderLine("p", None);
    assert h == "// p\n" && |h| == 5 && count(h) == 2;
    UsedTwo(2, pieces, count);
    FlattenTwo(pieces);
    KeepsAllIff(2, pieces, target, count);
    KeptFits(2, pieces, target, count);
    var kept := KeptPieces(2, pieces, 0, target, count);
    assert kept == 1;
    assert |OmittedNote(1)| > 48;
  }

  lemma {:induction false} UsedTwo(headerTokens: nat, pieces: seq<string>, count: Counter)
    requires |pieces| == 2
    ensures Used(headerTokens, pieces, 2, count) == headerTokens + count(pieces[0]) + count(pieces[1])
  {
    assert Used(headerTokens, pieces, 1, count) == headerTokens + count(pieces[0]);
  }

  lemma {:induction false} FlattenTwo(pieces: seq<string>)
    requires |pieces| == 2
    ensures Flatten(pieces) == pieces[0] + pieces[1]
  {
    FlattenOnly(pieces[1]);
    assert pieces[1..] == [pieces[1]];
  }

  lemma {:induction false} FlattenOnly(piece: string)
    ensures Flatten([piece]) == piece
  {
    assert [piece][1..] == [];
    assert Flatten<char>([]) == [];
  }

  lemma {:induction false} WholeIsFull(path: string, header: Option<string>, symbols: seq<Symbol>, level: Level,
                                       target: nat, count: Counter)
    requires !level.Reference?
    requires var pieces := Pieces(SortBy(MoreRelevant, symbols), level);
      KeptPieces(count(HeaderLine(path, header)), pieces, 0, target, count) == |pieces|
    ensures var r := SourceRendering(path, header, symbols, level, target, count);
      r.text == FullSource(path, header, symbols, level) && r.tokens == count(r.text) && r.droppedUnits == 0
  {
    hide SortBy, Flatten, KeptPieces, HeaderLine, Pieces, Digits;
    var pieces := Pieces(SortBy(MoreRelevant, symbols), level);
    assert pieces[..|pieces|] == pieces;
    assert OmittedNote(0) == "";
  }

  /** With a larger target both are kept. */
  lemma {:induction false} ShortInFull(target: nat)
    requires target >= 5
    ensures var r := SourceRendering("p", None, SHORT, Full, target, PerCharacters(4));
      r.text == FullSource("p", None, SHORT, Full) && r.tokens == 3 && r.droppedUnits == 0
  {
    hide SortBy, Flatten, KeptPieces, Piece, Used, SourceRendering, FullSource, HeaderLine;
    var count: Counter := PerCharacters(4);
    var pieces := Pieces(SHORT, Full);
    ShortPieces(Full);
    ShortHeader();
    UsedTwo(2, pieces, count);
    UsedGrows(2, pieces, 1, 2, count);
    assert Used(2, pieces, 1, count) < target by {
      UsedGrows(2, pieces, 0, 1, count);
      UsedOne(2, pieces, count);
    }
    KeepsAllIff(2, pieces, target, count);
    WholeIsFull("p", None, SHORT, Full, target, count);
    ShortIsCut(Full, 0);
  }

  lemma {:induction false} ShortHeader()
    ensures HeaderLine("p", None) == "// p\n" && PerCharacters(4)(HeaderLine("p", None)) == 2
  {
    assert |HeaderLine("p", None)| == 5;
  }

  lemma {:induction false} UsedOne(headerTokens: nat, pieces: seq<string>, count: Counter)
    requires |pieces| >= 1
    ensures Used(headerTokens, pieces, 1, count) == headerTokens + count(pieces[0])
  {
  }

  lemma {:induction false} ShortReference(target: nat)
    ensures SourceRendering("p", None, SHORT, Reference, target, PerCharacters(4)).tokens > 3
  {
    hide Joined;
    assert |SourceReference("p", SHORT)| > 12;
  }

  /** So with the repository's counter that source is larger with the note than whole. */
  lemma {:induction false} NoteMakesLarger(level: Level)
    requires !level.Reference?
    ensures SourceRendering("p", None, SHORT, level, 0, PerCharacters(4)).tokens
            > PerCharacters(4)(FullSource("p", None, SHORT, level))
  {
    ShortIsCut(level, 0);
  }
}
