/**
 * The blockquote depth-normalisation filter of ftml (filter/blockquote.rs).
 *
 * Lines prefixed by a run of `>` markers are rewritten into balanced
 * `[[quote]]` / `[[/quote]]` blocks in one pass that tracks the previous
 * line's depth. The filter's own grammar is not modelled: it is a
 * parameter that either fails or yields the page's top-level pairs.
 */
module Blockquote {
  import opened Wrappers

  /** A line after classification: a quote line of a given depth, or any other line. */
  datatype Line = QuoteLine(depth: nat, contents: string) | OtherLine(contents: string)

  /** A top-level pair of the blockquote grammar: its marker run and contents, or end of input. */
  datatype Pair =
    | QuoteLinePair(marker: string, contents: string)
    | OtherLinePair(contents: string)
    | EndOfInput

  /** What the blockquote grammar makes of a whole text. */
  datatype GrammarOutcome = GrammarError(message: string) | GrammarPairs(pairs: seq<Pair>)

  const ErrorPrefix := "Blockquote transform parsing error: "
  const OpenMarker := "[[quote]]\n"
  const CloseMarker := "[[/quote]]\n"

  /** One `push_str` / `push` into the output buffer. */
  datatype Piece = Open | Close | Content(text: string) | Newline

  function PieceText(p: Piece): string {
    match p
    case Open => OpenMarker
    case Close => CloseMarker
    case Content(t) => t
    case Newline => "\n"
  }

  /** The buffer a sequence of pushes leaves behind. */
  function Flatten(ps: seq<Piece>): string {
    if |ps| == 0 then [] else Flatten(ps[..|ps| - 1]) + PieceText(ps[|ps| - 1])
  }

  function Repeat(p: Piece, n: nat): (r: seq<Piece>)
    ensures |r| == n
    ensures forall i :: 0 <= i < n ==> r[i] == p
  {
    if n == 0 then [] else Repeat(p, n - 1) + [p]
  }

  /** The open depth a line leaves behind: its own depth for a quote line, 0 otherwise. */
  function DepthOf(line: Line): nat {
    match line
    case QuoteLine(d, _) => d
    case OtherLine(_) => 0
  }

  /** `prev_depth` when line `i` is reached. */
  function DepthBefore(lines: seq<Line>, i: nat): nat
    requires i <= |lines|
  {
    if i == 0 then 0 else DepthOf(lines[i - 1])
  }

  /** The markers that move the open depth from `prev` to the line's: one branch of the match. */
  function Markers(prev: nat, line: Line): seq<Piece> {
    match line
    case QuoteLine(d, _) =>
      if d > prev then Repeat(Open, d - prev)
      else if prev > d then Repeat(Close, prev - d)
      else []
    case OtherLine(_) => Repeat(Close, prev)
  }

  /** The markers, then the line's contents. */
  function Transition(prev: nat, line: Line): seq<Piece> {
    Markers(prev, line) + [Content(line.contents)]
  }

  /** Whether a newline follows line `i`: in the middle, or while quotes are still open. */
  predicate NewlineAfter(lines: seq<Line>, i: nat)
    requires i < |lines|
  {
    i < |lines| - 1 || DepthOf(lines[i]) != 0
  }

  /** Everything pushed for line `i`. */
  function Chunk(lines: seq<Line>, i: nat): seq<Piece>
    requires i < |lines|
  {
    Transition(DepthBefore(lines, i), lines[i]) + (if NewlineAfter(lines, i) then [Newline] else [])
  }

  /** Everything pushed for the first `n` lines. */
  function Chunks(lines: seq<Line>, n: nat): seq<Piece>
    requires n <= |lines|
  {
    if n == 0 then [] else Chunks(lines, n - 1) + Chunk(lines, n - 1)
  }

  /** The whole output: every line's pushes, then the closing markers still owed. */
  function Pieces(lines: seq<Line>): seq<Piece> {
    Chunks(lines, |lines|) + Repeat(Close, DepthBefore(lines, |lines|))
  }

  /** The lines the first loop collects: one per pair, up to the first end of input. */
  function LinesOf(pairs: seq<Pair>): seq<Line> {
    if |pairs| == 0 then []
    else match pairs[0]
      case EndOfInput => []
      case QuoteLinePair(m, c) => [QuoteLine(|m|, c)] + LinesOf(pairs[1..])
      case OtherLinePair(c) => [OtherLine(c)] + LinesOf(pairs[1..])
  }

  /** The line a pair stands for (a pair that is not end of input). */
  function LineOfPair(p: Pair): Line
    requires !p.EndOfInput?
  {
    match p
    case QuoteLinePair(m, c) => QuoteLine(|m|, c)
    case OtherLinePair(c) => OtherLine(c)
  }

  // ---------------------------------------------------------------------------
  // The filter

  /**
   * `substitute`: the empty text is left alone, a grammar failure is an error,
   * otherwise the text is replaced by the normalised buffer.
   */
  method Substitute(text: string, grammar: string -> GrammarOutcome) returns (r: Result<string, string>)
    ensures text == [] ==> r == Ok(text)
    ensures text != [] && grammar(text).GrammarError? ==>
      r == Err(ErrorPrefix + grammar(text).message)
    ensures text != [] && grammar(text).GrammarPairs? ==>
      r == Ok(Flatten(Pieces(LinesOf(grammar(text).pairs))))
  {
    if text == [] {
      return Ok(text);
    }
    var outcome := grammar(text);
    if outcome.GrammarError? {
      return Err(ErrorPrefix + outcome.message);
    }
    var lines := CollectLines(outcome.pairs);
    var buffer := BuildBuffer(lines);
    return Ok(buffer);
  }

  /** The first loop: turn pairs into lines, stopping at end of input. */
  method CollectLines(pairs: seq<Pair>) returns (lines: seq<Line>)
    ensures lines == LinesOf(pairs)
  {
    hide LinesOf;
    lines := [];
    var i := 0;
    while i < |pairs|
      invariant 0 <= i <= |pairs|
      invariant lines + LinesOf(pairs[i..]) == LinesOf(pairs)
    {
      LinesOfStep(pairs, i);
      match pairs[i] {
        case EndOfInput =>
          break;
        case QuoteLinePair(marker, contents) =>
          lines := lines + [QuoteLine(|marker|, contents)];
        case OtherLinePair(contents) =>
          lines := lines + [OtherLine(contents)];
      }
      i := i + 1;
    }
    if i == |pairs| {
      LinesOfEnd(pairs);
    }
  }

  lemma LinesOfEnd(pairs: seq<Pair>)
    ensures LinesOf(pairs[|pairs|..]) == []
  {
    assert |pairs[|pairs|..]| == 0;
  }

  lemma LinesOfStep(pairs: seq<Pair>, i: nat)
    requires i < |pairs|
    ensures pairs[i].EndOfInput? ==> LinesOf(pairs[i..]) == []
    ensures !pairs[i].EndOfInput? ==> LinesOf(pairs[i..]) == [LineOfPair(pairs[i])] + LinesOf(pairs[i + 1..])
  {
    assert pairs[i..][0] == pairs[i];
    assert pairs[i..][1..] == pairs[i + 1..];
  }

  /** One line per pair, in pair order, until the first end of input. */
  lemma {:induction false} LinesFollowPairs(pairs: seq<Pair>)
    ensures |LinesOf(pairs)| <= |pairs|
    ensures forall k :: 0 <= k < |LinesOf(pairs)| ==>
      !pairs[k].EndOfInput? && LinesOf(pairs)[k] == LineOfPair(pairs[k])
    ensures EndOfInput !in pairs ==> |LinesOf(pairs)| == |pairs|
  {
    if pairs != [] && !pairs[0].EndOfInput? {
      LinesFollowPairs(pairs[1..]);
      assert forall k :: 1 <= k < |pairs| ==> pairs[1..][k - 1] == pairs[k];
    }
  }

  /** The second loop: build the output buffer line by line while tracking `prev_depth`. */
  method BuildBuffer(lines: seq<Line>) returns (buffer: string)
    ensures buffer == Flatten(Pieces(lines))
  {
    hide Rendered, Flatten, Pieces, Times;
    buffer := "";
    var prevDepth: nat := 0;
    var i := 0;
    NothingRendered(lines);
    while i < |lines|
      invariant 0 <= i <= |lines|
      invariant prevDepth == DepthBefore(lines, i)
      invariant buffer == Rendered(lines, i)
    {
      ghost var before := buffer;
      ghost var markers := MarkerString(prevDepth, lines[i]);
      match lines[i] {
        case QuoteLine(depth, contents) =>
          if depth > prevDepth {
            buffer := PushMarkers(buffer, OpenMarker, depth - prevDepth);
          } else if prevDepth > depth {
            buffer := PushMarkers(buffer, CloseMarker, prevDepth - depth);
          }
          buffer := buffer + contents;
          prevDepth := depth;
        case OtherLine(contents) =>
          buffer := PushMarkers(buffer, CloseMarker, prevDepth);
          buffer := buffer + contents;
          prevDepth := 0;
      }
      if i < |lines| - 1 || prevDepth != 0 {
        buffer := buffer + "\n";
      }
      ghost var nl := if NewlineAfter(lines, i) then "\n" else "";
      assert buffer == before + markers + lines[i].contents + nl;
      Associate(before, markers, lines[i].contents, nl);
      RenderedStep(lines, i);
      i := i + 1;
    }
    buffer := PushMarkers(buffer, CloseMarker, prevDepth);
    OutputText(lines);
  }

  /** The text pushed for line `i`: its markers, its contents and maybe a newline. */
  function ChunkString(lines: seq<Line>, i: nat): string
    requires i < |lines|
  {
    MarkerString(DepthBefore(lines, i), lines[i])
    + lines[i].contents
    + (if NewlineAfter(lines, i) then "\n" else "")
  }

  /** The marker text `Transition` pushes before a line's contents. */
  function MarkerString(prev: nat, line: Line): string {
    match line
    case QuoteLine(d, _) =>
      if d > prev then Times(OpenMarker, d - prev)
      else if prev > d then Times(CloseMarker, prev - d)
      else ""
    case OtherLine(_) => Times(CloseMarker, prev)
  }

  /** The buffer after the first `n` lines. */
  function Rendered(lines: seq<Line>, n: nat): string
    requires n <= |lines|
  {
    if n == 0 then [] else Rendered(lines, n - 1) + ChunkString(lines, n - 1)
  }

  /** The output is the rendered lines followed by the closing markers still owed. */
  lemma OutputText(lines: seq<Line>)
    ensures Flatten(Pieces(lines)) == Rendered(lines, |lines|) + Times(CloseMarker, DepthBefore(lines, |lines|))
  {
    RenderedIsFlattened(lines, |lines|);
    FlattenAppend(Chunks(lines, |lines|), Repeat(Close, DepthBefore(lines, |lines|)));
    FlattenRepeat(Close, DepthBefore(lines, |lines|));
  }

  lemma {:induction false} RenderedIsFlattened(lines: seq<Line>, n: nat)
    requires n <= |lines|
    ensures Rendered(lines, n) == Flatten(Chunks(lines, n))
  {
    hide Chunk, ChunkString, Chunks, Flatten, Rendered;
    if n == 0 {
      NothingRendered(lines);
    } else {
      RenderedIsFlattened(lines, n - 1);
      ChunkText(lines, n - 1);
      RenderedStep(lines, n - 1);
    }
  }

  lemma NothingRendered(lines: seq<Line>)
    ensures Rendered(lines, 0) == [] && Flatten(Chunks(lines, 0)) == []
  {
  }

  lemma Associate(a: string, b: string, c: string, d: string)
    ensures a + b + c + d == a + (b + c + d)
  {
  }

  /** `for _ in 0..n { buffer.push_str(marker) }` */
  method PushMarkers(buffer: string, marker: string, n: nat) returns (r: string)
    ensures r == buffer + Times(marker, n)
  {
    r := buffer;
    for k := 0 to n
      invariant r == buffer + Times(marker, k)
    {
      r := r + marker;
    }
  }

  /** `s` repeated `n` times. */
  function Times(s: string, n: nat): string {
    if n == 0 then [] else Times(s, n - 1) + s
  }

  /** The text pushed for line `i`, and how it extends the buffer of the lines before it. */
  lemma ChunkText(lines: seq<Line>, i: nat)
    requires i < |lines|
    ensures Flatten(Chunk(lines, i)) == ChunkString(lines, i)
    ensures Flatten(Chunks(lines, i + 1)) == Flatten(Chunks(lines, i)) + Flatten(Chunk(lines, i))
  {
    hide Markers, MarkerString, Repeat, Times, Flatten;
    var prev := DepthBefore(lines, i);
    var t := Transition(prev, lines[i]);
    MarkersText(prev, lines[i]);
    FlattenSnoc(Markers(prev, lines[i]), Content(lines[i].contents));
    if NewlineAfter(lines, i) {
      FlattenSnoc(t, Newline);
    } else {
      assert Chunk(lines, i) == t;
    }
    FlattenAppend(Chunks(lines, i), Chunk(lines, i));
  }

  // ---------------------------------------------------------------------------
  // Flattening

  lemma FlattenSnoc(ps: seq<Piece>, p: Piece)
    ensures Flatten(ps + [p]) == Flatten(ps) + PieceText(p)
  {
    assert (ps + [p])[..|ps|] == ps;
  }

  lemma {:induction false} FlattenAppend(a: seq<Piece>, b: seq<Piece>)
    ensures Flatten(a + b) == Flatten(a) + Flatten(b)
    decreases |b|
  {
    if b == [] {
      assert a + b == a;
    } else {
      var b' := b[..|b| - 1];
      assert a + b == (a + b') + [b[|b| - 1]];
      assert b == b' + [b[|b| - 1]];
      FlattenSnoc(a + b', b[|b| - 1]);
      FlattenSnoc(b', b[|b| - 1]);
      FlattenAppend(a, b');
    }
  }

  lemma {:induction false} FlattenRepeat(p: Piece, n: nat)
    ensures Flatten(Repeat(p, n)) == Times(PieceText(p), n)
  {
    if n > 0 {
      FlattenSnoc(Repeat(p, n - 1), p);
      FlattenRepeat(p, n - 1);
    }
  }

  // ---------------------------------------------------------------------------
  // Counting markers

  /** Pushes of the same kind, whatever their text. */
  predicate SameKind(a: Piece, b: Piece) {
    (a.Open? && b.Open?) || (a.Close? && b.Close?) || (a.Content? && b.Content?) || (a.Newline? && b.Newline?)
  }

  /** How many pushes of `p`'s kind there are. */
  function Count(p: Piece, ps: seq<Piece>): nat {
    if |ps| == 0 then 0 else Count(p, ps[..|ps| - 1]) + (if SameKind(ps[|ps| - 1], p) then 1 else 0)
  }

  /** Opens minus closes: the quote depth a sequence of pushes leaves open. */
  function Balance(ps: seq<Piece>): int {
    Count(Open, ps) - Count(Close, ps)
  }

  lemma {:induction false} CountAppend(p: Piece, a: seq<Piece>, b: seq<Piece>)
    ensures Count(p, a + b) == Count(p, a) + Count(p, b)
    decreases |b|
  {
    if b == [] {
      assert a + b == a;
    } else {
      var b' := b[..|b| - 1];
      assert (a + b)[..|a + b| - 1] == a + b';
      CountAppend(p, a, b');
    }
  }

  lemma BalanceAppend(a: seq<Piece>, b: seq<Piece>)
    ensures Balance(a + b) == Balance(a) + Balance(b)
  {
    CountAppend(Open, a, b);
    CountAppend(Close, a, b);
  }

  lemma {:induction false} CountRepeat(p: Piece, q: Piece, n: nat)
    ensures Count(p, Repeat(q, n)) == if SameKind(p, q) then n else 0
  {
    if n > 0 {
      RepeatStep(q, n);
      var r := Repeat(q, n);
      hide Repeat;
      assert r[..n - 1] == Repeat(q, n - 1);
      assert r[n - 1] == q;
      CountRepeat(p, q, n - 1);
    }
  }

  lemma CountSingle(p: Piece, q: Piece)
    ensures Count(p, [q]) == if SameKind(p, q) then 1 else 0
  {
    assert [q][..0] == [];
  }

  /** The text of one line's markers. */
  lemma MarkersText(prev: nat, line: Line)
    ensures Flatten(Markers(prev, line)) == MarkerString(prev, line)
  {
    match line {
      case QuoteLine(d, _) =>
        if d > prev {
          assert Markers(prev, line) == Repeat(Open, d - prev);
          FlattenRepeat(Open, d - prev);
        } else if prev > d {
          assert Markers(prev, line) == Repeat(Close, prev - d);
          FlattenRepeat(Close, prev - d);
        }
      case OtherLine(_) =>
        assert Markers(prev, line) == Repeat(Close, prev);
        FlattenRepeat(Close, prev);
    }
  }

  /** One line's markers move the open depth from `prev` to the line's depth, with no newline. */
  lemma MarkersBalance(prev: nat, line: Line)
    ensures Balance(Markers(prev, line)) == DepthOf(line) - prev
    ensures Count(Newline, Markers(prev, line)) == 0
  {
    hide Count;
    match line {
      case QuoteLine(d, _) =>
        if d > prev {
          assert Markers(prev, line) == Repeat(Open, d - prev);
          CountRepeat(Open, Open, d - prev);
          CountRepeat(Close, Open, d - prev);
          CountRepeat(Newline, Open, d - prev);
        } else if prev > d {
          assert Markers(prev, line) == Repeat(Close, prev - d);
          CountRepeat(Open, Close, prev - d);
          CountRepeat(Close, Close, prev - d);
          CountRepeat(Newline, Close, prev - d);
        } else {
          assert Markers(prev, line) == Repeat(Open, 0);
          CountRepeat(Open, Open, 0);
          CountRepeat(Close, Open, 0);
          CountRepeat(Newline, Open, 0);
        }
      case OtherLine(_) =>
        assert Markers(prev, line) == Repeat(Close, prev);
        CountRepeat(Open, Close, prev);
        CountRepeat(Close, Close, prev);
        CountRepeat(Newline, Close, prev);
    }
  }

  lemma MarkersContents(prev: nat, line: Line)
    ensures ContentsOf(Markers(prev, line)) == []
  {
    match line {
      case QuoteLine(d, _) =>
        if d > prev {
          assert Markers(prev, line) == Repeat(Open, d - prev);
          ContentsRepeat(Open, d - prev);
        } else if prev > d {
          assert Markers(prev, line) == Repeat(Close, prev - d);
          ContentsRepeat(Close, prev - d);
        }
      case OtherLine(_) =>
        assert Markers(prev, line) == Repeat(Close, prev);
        ContentsRepeat(Close, prev);
    }
  }

  /** Closing from `prev` never goes below zero. */
  lemma MarkersStayOpen(prev: nat, line: Line)
    ensures StaysOpen(Markers(prev, line), prev)
  {
    match line {
      case QuoteLine(d, _) =>
        if d > prev {
          assert Markers(prev, line) == Repeat(Open, d - prev);
          StaysOpenRepeat(Open, d - prev, prev);
        } else if prev > d {
          assert Markers(prev, line) == Repeat(Close, prev - d);
          StaysOpenRepeat(Close, prev - d, prev);
        } else {
          StaysOpenRepeat(Open, 0, prev);
        }
      case OtherLine(_) =>
        assert Markers(prev, line) == Repeat(Close, prev);
        StaysOpenRepeat(Close, prev, prev);
    }
  }

  /** One line's pushes: its depth change, and one newline or none. */
  lemma ChunkBalance(lines: seq<Line>, i: nat)
    requires i < |lines|
    ensures DepthBefore(lines, i) + Balance(Chunk(lines, i)) == DepthOf(lines[i])
    ensures Count(Newline, Chunk(lines, i)) == if NewlineAfter(lines, i) then 1 else 0
  {
    var prev := DepthBefore(lines, i);
    var m := Markers(prev, lines[i]);
    var c := Content(lines[i].contents);
    var t := Transition(prev, lines[i]);
    MarkersBalance(prev, lines[i]);
    CountSingle(Open, c);
    CountSingle(Close, c);
    CountSingle(Newline, c);
    CountAppend(Newline, m, [c]);
    BalanceAppend(m, [c]);
    if NewlineAfter(lines, i) {
      CountSingle(Open, Newline);
      CountSingle(Close, Newline);
      CountSingle(Newline, Newline);
      CountAppend(Newline, t, [Newline]);
      BalanceAppend(t, [Newline]);
    } else {
      assert Chunk(lines, i) == t;
    }
  }

  /** One line's pushes hold its contents and nothing else. */
  lemma ChunkContents(lines: seq<Line>, i: nat)
    requires i < |lines|
    ensures ContentsOf(Chunk(lines, i)) == [lines[i].contents]
  {
    var prev := DepthBefore(lines, i);
    var m := Markers(prev, lines[i]);
    var c := Content(lines[i].contents);
    var t := Transition(prev, lines[i]);
    MarkersContents(prev, lines[i]);
    ContentsSingle(c);
    ContentsAppend(m, [c]);
    if NewlineAfter(lines, i) {
      ContentsSingle(Newline);
      ContentsAppend(t, [Newline]);
    } else {
      assert Chunk(lines, i) == t;
    }
  }

  /** One line's pushes never close more quotes than are open before it. */
  lemma StaysOpenChunk(lines: seq<Line>, i: nat)
    requires i < |lines|
    ensures StaysOpen(Chunk(lines, i), DepthBefore(lines, i))
  {
    var prev := DepthBefore(lines, i);
    var m := Markers(prev, lines[i]);
    var c := Content(lines[i].contents);
    var t := Transition(prev, lines[i]);
    MarkersStayOpen(prev, lines[i]);
    MarkersBalance(prev, lines[i]);
    StaysOpenInert(c, DepthOf(lines[i]));
    StaysOpenAppend(m, [c], prev);
    if NewlineAfter(lines, i) {
      BalanceAppend(m, [c]);
      CountSingle(Open, c);
      CountSingle(Close, c);
      StaysOpenInert(Newline, DepthOf(lines[i]));
      StaysOpenAppend(t, [Newline], prev);
    } else {
      assert Chunk(lines, i) == t;
    }
  }

  /** After the first `n` lines the open depth is the depth the n-th line left: `prev_depth`. */
  lemma {:induction false} DepthTracksPrevDepth(lines: seq<Line>, n: nat)
    requires n <= |lines|
    ensures Balance(Chunks(lines, n)) == DepthBefore(lines, n)
  {
    hide Chunk, NewlineAfter;
    if n > 0 {
      var k := n - 1;
      DepthTracksPrevDepth(lines, k);
      ChunkBalance(lines, k);
      BalanceAppend(Chunks(lines, k), Chunk(lines, k));
    }
  }

  /** After a quote line the open depth is that line's depth; after any other line it is 0. */
  lemma DepthAfterLine(lines: seq<Line>, i: nat)
    requires i < |lines|
    ensures lines[i].QuoteLine? ==> Balance(Chunks(lines, i + 1)) == lines[i].depth
    ensures lines[i].OtherLine? ==> Balance(Chunks(lines, i + 1)) == 0
  {
    DepthTracksPrevDepth(lines, i + 1);
  }

  /** The output holds exactly as many open markers as close markers. */
  lemma MarkersBalanced(lines: seq<Line>)
    ensures Count(Open, Pieces(lines)) == Count(Close, Pieces(lines))
  {
    var d := DepthBefore(lines, |lines|);
    DepthTracksPrevDepth(lines, |lines|);
    BalanceAppend(Chunks(lines, |lines|), Repeat(Close, d));
    CountRepeat(Open, Close, d);
    CountRepeat(Close, Close, d);
  }

  // ---------------------------------------------------------------------------
  // Valid nesting: no prefix of the output closes more than it opened

  /** Starting at open depth `base`, no prefix of `ps` drives the depth below zero. */
  ghost predicate StaysOpen(ps: seq<Piece>, base: int) {
    forall k :: 0 <= k <= |ps| ==> base + Balance(ps[..k]) >= 0
  }

  lemma StaysOpenAppend(a: seq<Piece>, b: seq<Piece>, base: int)
    requires StaysOpen(a, base)
    requires StaysOpen(b, base + Balance(a))
    ensures StaysOpen(a + b, base)
  {
    forall k | 0 <= k <= |a + b|
      ensures base + Balance((a + b)[..k]) >= 0
    {
      if k <= |a| {
        assert (a + b)[..k] == a[..k];
      } else {
        assert (a + b)[..k] == a + b[..k - |a|];
        assert a[..|a|] == a;
        BalanceAppend(a, b[..k - |a|]);
      }
    }
  }

  lemma {:induction false} StaysOpenRepeat(p: Piece, n: nat, base: nat)
    requires p == Open || p == Close
    requires p == Close ==> base >= n
    ensures StaysOpen(Repeat(p, n), base)
  {
    hide Repeat, StaysOpen, Count;
    if n == 0 {
      StaysOpenNothing(p, base);
    } else {
      var r := Repeat(p, n - 1);
      StaysOpenRepeat(p, n - 1, base);
      CountRepeat(Open, p, n - 1);
      CountRepeat(Close, p, n - 1);
      CountSingle(Open, p);
      CountSingle(Close, p);
      StaysOpenSingle(p, base + Balance(r));
      StaysOpenAppend(r, [p], base);
      RepeatStep(p, n);
    }
  }

  lemma StaysOpenNothing(p: Piece, base: nat)
    ensures StaysOpen(Repeat(p, 0), base)
  {
    var empty: seq<Piece> := [];
    assert Repeat(p, 0) == empty && empty[..0] == empty;
  }

  lemma StaysOpenSingle(p: Piece, base: int)
    requires base >= 0 && base + Balance([p]) >= 0
    ensures StaysOpen([p], base)
  {
    assert [p][..0] == [];
    assert [p][..1] == [p];
  }

  lemma StaysOpenInert(p: Piece, base: int)
    requires !p.Open? && !p.Close?
    requires base >= 0
    ensures StaysOpen([p], base)
  {
    CountSingle(Open, p);
    CountSingle(Close, p);
    StaysOpenSingle(p, base);
  }

  lemma RepeatStep(p: Piece, n: nat)
    requires n > 0
    ensures Repeat(p, n) == Repeat(p, n - 1) + [p]
  {
  }

  lemma {:induction false} StaysOpenChunks(lines: seq<Line>, n: nat)
    requires n <= |lines|
    ensures StaysOpen(Chunks(lines, n), 0)
  {
    hide Chunk;
    if n == 0 {
      var empty: seq<Piece> := [];
      assert Chunks(lines, 0) == empty && empty[..0] == empty;
    } else {
      StaysOpenChunks(lines, n - 1);
      DepthTracksPrevDepth(lines, n - 1);
      StaysOpenChunk(lines, n - 1);
      StaysOpenAppend(Chunks(lines, n - 1), Chunk(lines, n - 1), 0);
    }
  }

  /** Valid nesting: in every prefix of the output, opens are at least closes. */
  lemma NestingValid(lines: seq<Line>)
    ensures forall k :: 0 <= k <= |Pieces(lines)| ==>
      Count(Open, Pieces(lines)[..k]) >= Count(Close, Pieces(lines)[..k])
  {
    var d := DepthBefore(lines, |lines|);
    StaysOpenChunks(lines, |lines|);
    DepthTracksPrevDepth(lines, |lines|);
    StaysOpenRepeat(Close, d, d);
    StaysOpenAppend(Chunks(lines, |lines|), Repeat(Close, d), 0);
  }

  // ---------------------------------------------------------------------------
  // Contents and newlines

  /** The contents pushed, in push order. */
  function ContentsOf(ps: seq<Piece>): seq<string> {
    if |ps| == 0 then []
    else ContentsOf(ps[..|ps| - 1]) + (if ps[|ps| - 1].Content? then [ps[|ps| - 1].text] else [])
  }

  function LineContents(lines: seq<Line>): (r: seq<string>)
    ensures |r| == |lines|
    ensures forall k :: 0 <= k < |lines| ==> r[k] == lines[k].contents
  {
    if |lines| == 0 then [] else LineContents(lines[..|lines| - 1]) + [lines[|lines| - 1].contents]
  }

  lemma {:induction false} ContentsAppend(a: seq<Piece>, b: seq<Piece>)
    ensures ContentsOf(a + b) == ContentsOf(a) + ContentsOf(b)
    decreases |b|
  {
    if b == [] {
      assert a + b == a;
    } else {
      var b' := b[..|b| - 1];
      assert (a + b)[..|a + b| - 1] == a + b';
      ContentsAppend(a, b');
    }
  }

  lemma {:induction false} ContentsRepeat(p: Piece, n: nat)
    requires !p.Content?
    ensures ContentsOf(Repeat(p, n)) == []
  {
    if n > 0 {
      assert Repeat(p, n)[..n - 1] == Repeat(p, n - 1);
      ContentsRepeat(p, n - 1);
    }
  }

  lemma ContentsSingle(p: Piece)
    ensures ContentsOf([p]) == if p.Content? then [p.text] else []
  {
    assert [p][..0] == [];
  }

  lemma {:induction false} ChunksContents(lines: seq<Line>, n: nat)
    requires n <= |lines|
    ensures ContentsOf(Chunks(lines, n)) == LineContents(lines[..n])
  {
    hide Chunk;
    if n > 0 {
      ChunksContents(lines, n - 1);
      ChunkContents(lines, n - 1);
      ContentsAppend(Chunks(lines, n - 1), Chunk(lines, n - 1));
      assert lines[..n][..n - 1] == lines[..n - 1];
    }
  }

  /** Every line's contents appear in the output exactly once, in input order. */
  lemma ContentsInOrder(lines: seq<Line>)
    ensures ContentsOf(Pieces(lines)) == LineContents(lines)
  {
    ChunksContents(lines, |lines|);
    ContentsAppend(Chunks(lines, |lines|), Repeat(Close, DepthBefore(lines, |lines|)));
    ContentsRepeat(Close, DepthBefore(lines, |lines|));
    assert lines[..|lines|] == lines;
  }

  /**
   * One newline separates consecutive lines, and one more follows the last
   * line exactly when it leaves quotes open.
   */
  lemma NewlineCount(lines: seq<Line>)
    requires lines != []
    ensures Count(Newline, Pieces(lines)) ==
      |lines| - 1 + (if DepthOf(lines[|lines| - 1]) != 0 then 1 else 0)
  {
    hide Chunks, Chunk, Count, Repeat;
    ChunksNewlines(lines, |lines|);
    CountAppend(Newline, Chunks(lines, |lines|), Repeat(Close, DepthBefore(lines, |lines|)));
    CountRepeat(Newline, Close, DepthBefore(lines, |lines|));
  }

  lemma {:induction false} ChunksNewlines(lines: seq<Line>, n: nat)
    requires 0 < n <= |lines|
    ensures Count(Newline, Chunks(lines, n)) ==
      n - 1 + (if NewlineAfter(lines, n - 1) then 1 else 0)
  {
    hide Chunk;
    ChunkBalance(lines, n - 1);
    CountAppend(Newline, Chunks(lines, n - 1), Chunk(lines, n - 1));
    if n > 1 {
      ChunksNewlines(lines, n - 1);
    }
  }

  // ---------------------------------------------------------------------------
  // Text without quote lines

  /** Each string followed by a newline. */
  function Terminated(cs: seq<string>): string {
    if |cs| == 0 then [] else Terminated(cs[..|cs| - 1]) + cs[|cs| - 1] + "\n"
  }

  /** The strings joined by newlines, with no trailing newline. */
  function JoinLines(cs: seq<string>): string {
    if |cs| == 0 then [] else Terminated(cs[..|cs| - 1]) + cs[|cs| - 1]
  }

  /** Outside the last line, a line that is not a quote pushes its contents and a newline. */
  lemma OtherChunkString(lines: seq<Line>, i: nat)
    requires i < |lines|
    requires forall k :: 0 <= k < |lines| ==> lines[k].OtherLine?
    ensures i < |lines| - 1 ==> ChunkString(lines, i) == lines[i].contents + "\n"
    ensures i == |lines| - 1 ==> ChunkString(lines, i) == lines[i].contents
  {
    assert DepthBefore(lines, i) == 0;
    assert MarkerString(0, lines[i]) == [];
  }

  lemma LineContentsSnoc(lines: seq<Line>, n: nat)
    requires 0 < n <= |lines|
    ensures LineContents(lines[..n]) == LineContents(lines[..n - 1]) + [lines[n - 1].contents]
  {
    assert lines[..n][..n - 1] == lines[..n - 1];
  }

  lemma NoLineContents(lines: seq<Line>)
    ensures Terminated(LineContents(lines[..0])) == []
  {
    assert |LineContents(lines[..0])| == 0;
  }

  lemma TerminatedSnoc(cs: seq<string>, c: string)
    ensures Terminated(cs + [c]) == Terminated(cs) + c + "\n"
  {
    assert (cs + [c])[..|cs|] == cs;
  }

  lemma {:induction false} OtherRendered(lines: seq<Line>, n: nat)
    requires n < |lines|
    requires forall k :: 0 <= k < |lines| ==> lines[k].OtherLine?
    ensures Rendered(lines, n) == Terminated(LineContents(lines[..n]))
  {
    hide ChunkString, LineContents, Terminated;
    if n == 0 {
      NoLineContents(lines);
    } else {
      OtherRendered(lines, n - 1);
      OtherChunkString(lines, n - 1);
      LineContentsSnoc(lines, n);
      TerminatedSnoc(LineContents(lines[..n - 1]), lines[n - 1].contents);
    }
  }

  /** Text with no quote line is reproduced exactly: the lines joined by newlines. */
  lemma NoQuotesUnchanged(lines: seq<Line>)
    requires forall k :: 0 <= k < |lines| ==> lines[k].OtherLine?
    ensures Flatten(Pieces(lines)) == JoinLines(LineContents(lines))
  {
    hide Pieces, Flatten, Rendered, ChunkString, Terminated, JoinLines, DepthBefore, Times;
    OutputText(lines);
    OtherDepth(lines);
    TimesZero(CloseMarker);
    if lines == [] {
      NoLines(lines);
    } else {
      var n := |lines| - 1;
      OtherRendered(lines, n);
      OtherChunkString(lines, n);
      RenderedStep(lines, n);
      JoinLinesOf(lines);
    }
  }

  lemma JoinLinesOf(lines: seq<Line>)
    requires lines != []
    ensures JoinLines(LineContents(lines)) == Terminated(LineContents(lines[..|lines| - 1])) + lines[|lines| - 1].contents
  {
    assert lines[..|lines|] == lines;
    LineContentsSnoc(lines, |lines|);
  }

  lemma NoLines(lines: seq<Line>)
    requires lines == []
    ensures Rendered(lines, 0) == [] && JoinLines(LineContents(lines)) == []
  {
  }

  lemma OtherDepth(lines: seq<Line>)
    requires forall k :: 0 <= k < |lines| ==> lines[k].OtherLine?
    ensures DepthBefore(lines, |lines|) == 0
  {
  }

  // ---------------------------------------------------------------------------
  // Literal cases of the filter's test table

  /** `">>>> deep quote block\n>>>> contents"`: four opens, both contents, four closes. */
  lemma DeepQuoteCase()
    ensures Flatten(Pieces([QuoteLine(4, "deep quote block"), QuoteLine(4, "contents")])) ==
      OpenMarker + OpenMarker + OpenMarker + OpenMarker + "deep quote block\n" + "contents\n"
      + CloseMarker + CloseMarker + CloseMarker + CloseMarker
  {
    hide Pieces, Flatten, Rendered, ChunkString, DepthBefore, Times;
    var lines := [QuoteLine(4, "deep quote block"), QuoteLine(4, "contents")];
    OutputText(lines);
    DeepQuoteChunks(lines);
    TimesFour(OpenMarker);
    TimesFour(CloseMarker);
    RenderedStep(lines, 0);
    RenderedStep(lines, 1);
  }

  lemma DeepQuoteChunks(lines: seq<Line>)
    requires lines == [QuoteLine(4, "deep quote block"), QuoteLine(4, "contents")]
    ensures ChunkString(lines, 0) == Times(OpenMarker, 4) + "deep quote block\n"
    ensures ChunkString(lines, 1) == "contents\n"
    ensures DepthBefore(lines, 2) == 4
  {
  }

  lemma TimesFour(s: string)
    ensures Times(s, 4) == s + s + s + s
  {
    assert Times(s, 1) == s;
    assert Times(s, 2) == s + s;
    assert Times(s, 3) == s + s + s;
  }

  /** `"> alpha\nbeta\n> gamma\ndelta"`: quote blocks close before each other line. */
  lemma AlternatingCase()
    ensures Flatten(Pieces([QuoteLine(1, "alpha"), OtherLine("beta"), QuoteLine(1, "gamma"), OtherLine("delta")])) ==
      OpenMarker + "alpha\n" + CloseMarker + "beta\n" + OpenMarker + "gamma\n" + CloseMarker + "delta"
  {
    hide Pieces, Flatten, Rendered, ChunkString, DepthBefore, Times;
    var lines := [QuoteLine(1, "alpha"), OtherLine("beta"), QuoteLine(1, "gamma"), OtherLine("delta")];
    OutputText(lines);
    AlternatingChunks(lines);
    TimesZero(CloseMarker);
    RenderedStep(lines, 0);
    RenderedStep(lines, 1);
    RenderedStep(lines, 2);
    RenderedStep(lines, 3);
  }

  lemma AlternatingChunks(lines: seq<Line>)
    requires lines == [QuoteLine(1, "alpha"), OtherLine("beta"), QuoteLine(1, "gamma"), OtherLine("delta")]
    ensures ChunkString(lines, 0) == OpenMarker + "alpha\n"
    ensures ChunkString(lines, 1) == CloseMarker + "beta\n"
    ensures ChunkString(lines, 2) == OpenMarker + "gamma\n"
    ensures ChunkString(lines, 3) == CloseMarker + "delta"
    ensures DepthBefore(lines, 4) == 0
  {
    assert Times(OpenMarker, 1) == OpenMarker;
    assert Times(CloseMarker, 1) == CloseMarker;
  }

  lemma TimesZero(s: string)
    ensures Times(s, 0) == []
  {
  }

  lemma RenderedStep(lines: seq<Line>, n: nat)
    requires n < |lines|
    ensures Rendered(lines, 0) == []
    ensures Rendered(lines, n + 1) == Rendered(lines, n) + ChunkString(lines, n)
  {
  }
}
