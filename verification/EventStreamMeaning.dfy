/**
 What the event-stream client makes of a text, said without its parser: every text is, in one way, a
 series of blocks of lines, and each block is delivered, ignored or obeyed by what its lines say.
 */
module EventStreamMeaning {
  import opened Text
  import opened EventStream

  // ---- The grammar ----------------------------------------------------------------------------

  datatype LineEnd = LF | CRLF

  function End(e: LineEnd): string {
    if e == LF then "\n" else "\r\n"
  }

  /** Lines with a line end between each two. */
  function Lay(lines: seq<string>, ends: seq<LineEnd>): string
    requires |lines| == |ends| + 1
  {
    if ends == [] then lines[0] else lines[0] + End(ends[0]) + Lay(lines[1..], ends[1..])
  }

  /** A line holds no line feed; one that ends in a carriage return can only stand before CRLF. */
  predicate IsLine(line: string, e: LineEnd) {
    && '\n' !in line
    && (line != "" && line[|line| - 1] == '\r' ==> e == CRLF)
  }

  /** A block: its lines, the line ends between them, and the two that close it. */
  datatype Piece = Piece(lines: seq<string>, ends: seq<LineEnd>, first: LineEnd, second: LineEnd)

  predicate IsLaid(lines: seq<string>, ends: seq<LineEnd>, first: LineEnd) {
    && |lines| == |ends| + 1
    && (forall i | 0 <= i < |ends| :: IsLine(lines[i], ends[i]))
    && IsLine(lines[|ends|], first)
  }

  /** No line is empty but perhaps the first: an empty line would end the block. */
  predicate IsPiece(p: Piece) {
    IsLaid(p.lines, p.ends, p.first) && forall i | 0 < i < |p.lines| :: p.lines[i] != ""
  }

  function Show(p: Piece): string
    requires IsPiece(p)
  {
    Lay(p.lines, p.ends) + End(p.first) + End(p.second)
  }

  predicate ArePieces(pieces: seq<Piece>) {
    forall p | p in pieces :: IsPiece(p)
  }

  function ShowAll(pieces: seq<Piece>): string
    requires ArePieces(pieces)
  {
    if pieces == [] then "" else Show(pieces[0]) + ShowAll(pieces[1..])
  }

  // ---- What a block says ----------------------------------------------------------------------

  predicate IsLastEvent(lines: seq<string>, i: nat) {
    i < |lines| && EventField <= lines[i] && forall j | i < j < |lines| :: !(EventField <= lines[j])
  }

  /** The last event line names the event; a block without one is a message. */
  ghost predicate IsNamed(lines: seq<string>, name: string) {
    if exists i: nat :: IsLastEvent(lines, i)
    then exists i: nat :: IsLastEvent(lines, i) && name == Trim(lines[i][|EventField|..], IsScriptSpace)
    else name == "message"
  }

  /** The values of the data lines, in order. */
  function Values(lines: seq<string>): seq<string> {
    if lines == [] then []
    else
      (if DataField <= lines[0] then [TrimStart(lines[0][|DataField|..], IsScriptSpace)] else [])
      + Values(lines[1..])
  }

  /** A disconnect stops the client; a message with data is delivered as one text; all else is ignored. */
  ghost function Meaning(lines: seq<string>): Verdict {
    if IsNamed(lines, "disconnect") then Disconnect
    else if IsNamed(lines, "message") && Values(lines) != [] then Deliver(Join(Values(lines), '\n'))
    else Ignore
  }

  // ---- Lines ----------------------------------------------------------------------------------

  lemma {:induction false} LinesSkip(s: string, i: nat, n: nat)
    requires i <= n <= |s| && forall j | i <= j < n :: NewlineAt(s, j) == 0
    ensures Lines(s, i) == Lines(s, n)
    decreases n - i
  {
    if i < n {
      LinesSkip(s, i + 1, n);
    }
  }

  lemma LineHasNoEnd(line: string, e: LineEnd, rest: string, j: nat)
    requires IsLine(line, e) && j < |line|
    ensures NewlineAt(line + End(e) + rest, j) == 0
  {
    var s := line + End(e) + rest;
    assert s[j] == line[j] && line[j] in line;
    if j + 1 < |line| {
      assert s[j + 1] == line[j + 1] && line[j + 1] in line;
    } else {
      assert s[|line|] == End(e)[0];
    }
  }

  lemma EndOfLine(line: string, e: LineEnd, rest: string)
    requires IsLine(line, e)
    ensures NewlineAt(line + End(e) + rest, |line|) == |End(e)|
  {
    var s := line + End(e) + rest;
    assert s[|line|] == End(e)[0];
    if e == CRLF {
      assert s[|line| + 1] == End(e)[1];
    }
  }

  lemma {:induction false} LinesOfLay(lines: seq<string>, ends: seq<LineEnd>, first: LineEnd)
    requires IsLaid(lines, ends, first)
    ensures Lines(Lay(lines, ends)) == lines
    decreases |lines|
  {
    var s, line := Lay(lines, ends), lines[0];
    if ends == [] {
      forall j | 0 <= j < |s| ensures NewlineAt(s, j) == 0 {
        assert s[j] in line;
        assert j + 1 < |s| ==> s[j + 1] in line;
      }
      LinesSkip(s, 0, |s|);
    } else {
      var rest := Lay(lines[1..], ends[1..]);
      forall j | 0 <= j < |line| ensures NewlineAt(s, j) == 0 {
        LineHasNoEnd(line, ends[0], rest, j);
      }
      LinesSkip(s, 0, |line|);
      EndOfLine(line, ends[0], rest);
      assert s[..|line|] == line && s[|line| + |End(ends[0])|..] == rest;
      LinesOfLay(lines[1..], ends[1..], first);
    }
  }

  // ---- Reading lines --------------------------------------------------------------------------

  lemma {:induction false} ValuesAppend(lines: seq<string>, line: string)
    ensures Values(lines + [line]) == Values(lines) + Values([line])
  {
    if lines == [] {
      assert lines + [line] == [line];
    } else {
      assert (lines + [line])[1..] == lines[1..] + [line];
      ValuesAppend(lines[1..], line);
    }
  }

  lemma {:induction false} ReadsValues(f: Fields, lines: seq<string>)
    ensures ReadLines(f, lines).data == f.data + Values(lines)
  {
    if lines != [] {
      var n := |lines| - 1;
      ReadsValues(f, lines[..n]);
      ValuesAppend(lines[..n], lines[n]);
      assert lines[..n] + [lines[n]] == lines;
    }
  }

  lemma {:induction false} ReadsName(f: Fields, lines: seq<string>)
    ensures (exists i: nat :: IsLastEvent(lines, i))
            ==> exists i: nat :: IsLastEvent(lines, i)
                                 && ReadLines(f, lines).eventName == Trim(lines[i][|EventField|..], IsScriptSpace)
    ensures !(exists i: nat :: IsLastEvent(lines, i)) ==> ReadLines(f, lines).eventName == f.eventName
  {
    if lines != [] {
      var n := |lines| - 1;
      if EventField <= lines[n] {
        assert IsLastEvent(lines, n);
      } else {
        ReadsName(f, lines[..n]);
        assert forall i: nat :: IsLastEvent(lines, i) <==> IsLastEvent(lines[..n], i);
      }
    }
  }

  lemma OneName(lines: seq<string>, a: string, b: string)
    requires IsNamed(lines, a) && IsNamed(lines, b)
    ensures a == b
  {
    if i: nat, j: nat :| IsLastEvent(lines, i) && IsLastEvent(lines, j) && i != j {
      assert false;
    }
  }

  /** The client's verdict on a block, however its lines end. */
  lemma BlockMeaning(lines: seq<string>, ends: seq<LineEnd>, first: LineEnd)
    requires IsLaid(lines, ends, first)
    ensures DispatchBlock(Lay(lines, ends)) == Meaning(lines)
  {
    LinesOfLay(lines, ends, first);
    var start := Fields("message", []);
    ReadsValues(start, lines);
    assert ReadLines(start, lines).data == Values(lines);
    ReadsName(start, lines);
    var name := ReadLines(start, lines).eventName;
    assert IsNamed(lines, name);
    if IsNamed(lines, "disconnect") {
      OneName(lines, name, "disconnect");
    } else if IsNamed(lines, "message") {
      OneName(lines, name, "message");
    }
  }

  // ---- Where a block ends ---------------------------------------------------------------------

  lemma NewlineShift(a: string, b: string, k: nat)
    ensures NewlineAt(a + b, |a| + k) == NewlineAt(b, k)
  {
  }

  lemma SeparatorShift(a: string, b: string, k: nat)
    ensures SeparatorAt(a + b, |a| + k) == SeparatorAt(b, k)
  {
    NewlineShift(a, b, k);
    NewlineShift(a, b, k + NewlineAt(b, k));
  }

  /** A line that is not empty does not start with a line end. */
  lemma LineStarts(line: string, e: LineEnd, rest: string)
    requires IsLine(line, e) && line != ""
    ensures NewlineAt(line + End(e) + rest, 0) == 0
  {
    LineHasNoEnd(line, e, rest, 0);
  }

  /** The text that follows the first line end of a block starts with a line. */
  lemma RestStarts(lines: seq<string>, ends: seq<LineEnd>, first: LineEnd, rest: string)
    requires IsLaid(lines, ends, first) && lines[0] != ""
    ensures NewlineAt(Lay(lines, ends) + End(first) + rest, 0) == 0
  {
    if ends == [] {
      LineStarts(lines[0], first, rest);
    } else {
      var tail := Lay(lines[1..], ends[1..]) + End(first) + rest;
      LineStarts(lines[0], ends[0], tail);
      assert Lay(lines, ends) + End(first) + rest == lines[0] + End(ends[0]) + tail;
    }
  }

  lemma {:induction false} NoSeparatorInside(lines: seq<string>, ends: seq<LineEnd>, first: LineEnd,
                                             rest: string, j: nat)
    requires IsLaid(lines, ends, first) && j < |Lay(lines, ends)|
    requires forall i | 0 < i < |lines| :: lines[i] != ""
    ensures SeparatorAt(Lay(lines, ends) + End(first) + rest, j) == 0
    decreases |lines|
  {
    var s, line := Lay(lines, ends) + End(first) + rest, lines[0];
    if ends == [] {
      LineHasNoEnd(line, first, rest, j);
    } else {
      var tail := Lay(lines[1..], ends[1..]) + End(first) + rest;
      assert s == line + End(ends[0]) + tail;
      if j < |line| {
        LineHasNoEnd(line, ends[0], tail, j);
      } else if j < |line| + |End(ends[0])| {
        InsideEnd(line, ends[0], lines[1..], ends[1..], first, rest, j);
      } else {
        var k := j - |line + End(ends[0])|;
        NoSeparatorInside(lines[1..], ends[1..], first, rest, k);
        SeparatorShift(line + End(ends[0]), tail, k);
      }
    }
  }

  lemma InsideEnd(line: string, e: LineEnd, lines: seq<string>, ends: seq<LineEnd>, first: LineEnd,
                  rest: string, j: nat)
    requires IsLine(line, e) && IsLaid(lines, ends, first) && lines[0] != ""
    requires |line| <= j < |line| + |End(e)|
    ensures SeparatorAt(line + End(e) + (Lay(lines, ends) + End(first) + rest), j) == 0
  {
    var tail := Lay(lines, ends) + End(first) + rest;
    var s := line + End(e) + tail;
    EndOfLine(line, e, tail);
    RestStarts(lines, ends, first, rest);
    NewlineShift(line + End(e), tail, 0);
    if j > |line| {
      assert s[j] == End(e)[1];
    }
  }

  /** A block is cut off where its two closing line ends stand. */
  lemma PieceEnds(p: Piece, rest: string)
    requires IsPiece(p)
    ensures var s, n := Show(p) + rest, |Lay(p.lines, p.ends)|;
            Boundary(s) == n < |s| && s[..n] == Lay(p.lines, p.ends) && s[n + SeparatorAt(s, n)..] == rest
  {
    var block, closing := Lay(p.lines, p.ends), End(p.second) + rest;
    var s, n := Show(p) + rest, |Lay(p.lines, p.ends)|;
    assert s == block + End(p.first) + closing;
    forall j | 0 <= j < n ensures SeparatorAt(s, j) == 0 {
      NoSeparatorInside(p.lines, p.ends, p.first, closing, j);
    }
    ClosingEnds(p.first, p.second, rest);
    assert s == block + (End(p.first) + End(p.second) + rest);
    SeparatorShift(block, End(p.first) + End(p.second) + rest, 0);
    assert s[..n] == block;
    assert s[n + SeparatorAt(s, n)..] == rest;
  }

  lemma ClosingEnds(first: LineEnd, second: LineEnd, rest: string)
    ensures SeparatorAt(End(first) + End(second) + rest, 0) == |End(first)| + |End(second)|
  {
    var s := End(first) + End(second) + rest;
    assert s == "" + End(first) + (End(second) + rest);
    EndOfLine("", first, End(second) + rest);
    EndOfLine("", second, rest);
    assert "" + End(second) + rest == End(second) + rest;
    assert s == End(first) + (End(second) + rest);
    NewlineShift(End(first), End(second) + rest, 0);
  }

  // ---- Every text -----------------------------------------------------------------------------

  /** The text up to a boundary, cut into its lines. */
  lemma {:induction false} CutLines(s: string, i: nat, tail: string) returns (lines: seq<string>, ends: seq<LineEnd>)
    requires i <= |s| && SeparatorAt(tail, 0) > 0
    requires forall j | 0 <= j < i :: NewlineAt(s + tail, j) == 0
    requires forall j | 0 <= j < |s| :: SeparatorAt(s + tail, j) == 0
    ensures |lines| == |ends| + 1 && Lay(lines, ends) == s
    ensures IsLaid(lines, ends, if tail[0] == '\n' then LF else CRLF)
    ensures forall k | 0 < k < |lines| :: lines[k] != ""
    ensures NewlineAt(s + tail, 0) == 0 ==> lines[0] != ""
    decreases |s| - i
  {
    var t := s + tail;
    if i == |s| {
      assert forall j | 0 <= j < |s| :: t[j] == s[j];
      assert t[|s|] == tail[0];
      NewlineShift(s, tail, 0);
      NoLineFeed(t, i);
      assert t[..i] == s;
      return [s], [];
    }
    if NewlineAt(t, i) == 0 {
      lines, ends := CutLines(s, i + 1, tail);
      return;
    }
    var n := NewlineAt(t, i);
    InsideBlock(s, i, tail);
    var rest := s[i + n..];
    assert t == s[..i + n] + (rest + tail);
    forall j | 0 <= j < |rest| ensures SeparatorAt(rest + tail, j) == 0 {
      SeparatorShift(s[..i + n], rest + tail, j);
    }
    NewlineShift(s[..i + n], rest + tail, 0);
    var l, e := CutLines(rest, 0, tail);
    NoLineFeed(t, i);
    assert t[..i] == s[..i];
    lines, ends := [s[..i]] + l, [if t[i] == '\n' then LF else CRLF] + e;
    assert lines[1..] == l && ends[1..] == e;
    assert s == s[..i] + End(ends[0]) + rest;
  }

  /** Before the first line end there is no line feed, and a carriage return only if CRLF follows. */
  lemma NoLineFeed(t: string, i: nat)
    requires i < |t| && NewlineAt(t, i) > 0 && forall j | 0 <= j < i :: NewlineAt(t, j) == 0
    ensures IsLine(t[..i], if t[i] == '\n' then LF else CRLF)
  {
    forall j | 0 <= j < i ensures t[j] != '\n' {
      assert NewlineAt(t, j) == 0;
    }
    if i > 0 {
      assert NewlineAt(t, i - 1) == 0;
    }
  }

  /** A line end that starts in the block ends in it, and the block goes on after it. */
  lemma InsideBlock(s: string, i: nat, tail: string)
    requires i < |s| && NewlineAt(s + tail, i) > 0 && SeparatorAt(tail, 0) > 0 && SeparatorAt(s + tail, i) == 0
    ensures i + NewlineAt(s + tail, i) < |s|
    ensures NewlineAt(s + tail, i + NewlineAt(s + tail, i)) == 0
  {
    var t, n := s + tail, NewlineAt(s + tail, i);
    NewlineShift(s, tail, 0);
    NewlineShift(s, tail, 1);
    assert NewlineAt(t, i + n) == 0;
  }

  /** Every text is a series of blocks and a rest in which no block is complete. */
  lemma {:induction false} EveryTextIsLaid(text: string) returns (pieces: seq<Piece>, rest: string)
    ensures ArePieces(pieces) && text == ShowAll(pieces) + rest && Boundary(rest) == |rest|
    decreases |text|
  {
    var b := Boundary(text);
    if b == |text| {
      return [], text;
    }
    var p := FirstPiece(text, b);
    pieces, rest := EveryTextIsLaid(text[b + SeparatorAt(text, b)..]);
    ShowMore(p, pieces, rest);
    pieces := [p] + pieces;
  }

  lemma ShowMore(p: Piece, pieces: seq<Piece>, rest: string)
    requires IsPiece(p) && ArePieces(pieces)
    ensures ArePieces([p] + pieces) && ShowAll([p] + pieces) + rest == Show(p) + (ShowAll(pieces) + rest)
  {
    assert ([p] + pieces)[1..] == pieces;
  }

  lemma FirstPiece(text: string, b: nat) returns (p: Piece)
    requires b == Boundary(text) < |text|
    ensures IsPiece(p) && text == Show(p) + text[b + SeparatorAt(text, b)..]
  {
    var s, tail := text[..b], text[b..];
    assert text == s + tail;
    SeparatorShift(s, tail, 0);
    p := PieceBefore(s, tail);
    assert tail[SeparatorAt(tail, 0)..] == text[b + SeparatorAt(text, b)..];
  }

  lemma PieceBefore(s: string, tail: string) returns (p: Piece)
    requires SeparatorAt(tail, 0) > 0 && forall j | 0 <= j < |s| :: SeparatorAt(s + tail, j) == 0
    ensures IsPiece(p) && s + tail == Show(p) + tail[SeparatorAt(tail, 0)..]
  {
    var lines, ends := CutLines(s, 0, tail);
    var first, second := EndAt(tail, 0), EndAt(tail, NewlineAt(tail, 0));
    TwoEnds(tail);
    p := Piece(lines, ends, first, second);
    assert s + (End(first) + End(second) + tail[SeparatorAt(tail, 0)..])
        == s + End(first) + End(second) + tail[SeparatorAt(tail, 0)..];
  }

  lemma TwoEnds(tail: string)
    requires SeparatorAt(tail, 0) > 0
    ensures tail == End(EndAt(tail, 0)) + End(EndAt(tail, NewlineAt(tail, 0))) + tail[SeparatorAt(tail, 0)..]
    ensures EndAt(tail, 0) == if tail[0] == '\n' then LF else CRLF
  {
    var n := NewlineAt(tail, 0);
    EndIsCut(tail, 0);
    EndIsCut(tail, n);
    assert tail == tail[..n] + tail[n..n + NewlineAt(tail, n)] + tail[n + NewlineAt(tail, n)..];
  }

  lemma EndIsCut(s: string, i: nat)
    requires NewlineAt(s, i) > 0
    ensures s[i..i + NewlineAt(s, i)] == End(EndAt(s, i))
  {
  }

  function EndAt(s: string, i: nat): LineEnd {
    if NewlineAt(s, i) == 2 then CRLF else LF
  }

  // ---- What is heard --------------------------------------------------------------------------

  /** What the blocks before the first disconnect deliver. */
  ghost function Heard(pieces: seq<Piece>): seq<string> {
    if pieces == [] then []
    else match Meaning(pieces[0].lines)
      case Disconnect => []
      case Ignore => Heard(pieces[1..])
      case Deliver(data) => [data] + Heard(pieces[1..])
  }

  ghost predicate Disconnects(pieces: seq<Piece>) {
    exists p :: p in pieces && IsNamed(p.lines, "disconnect")
  }

  lemma PieceConsumed(p: Piece, later: string)
    requires IsPiece(p)
    ensures Consume(Show(p) + later) == After(Meaning(p.lines), later, Consume(later))
  {
    PieceEnds(p, later);
    ConsumeFirst(Show(p) + later, Lay(p.lines, p.ends), later);
    BlockMeaning(p.lines, p.ends, p.first);
  }

  ghost predicate IsHeard(pieces: seq<Piece>, rest: string, o: Outcome) {
    o.delivered == Heard(pieces) && o.stopped == Disconnects(pieces) && (!o.stopped ==> o.rest == rest)
  }

  lemma HeardBefore(p: Piece, pieces: seq<Piece>, later: string, rest: string, o: Outcome)
    requires IsHeard(pieces, rest, o)
    ensures IsHeard([p] + pieces, rest, After(Meaning(p.lines), later, o))
  {
    var all := [p] + pieces;
    assert all[1..] == pieces;
    assert forall q :: q in all <==> q == p || q in pieces;
    assert Disconnects(all) <==> IsNamed(p.lines, "disconnect") || Disconnects(pieces);
  }

  lemma HeardFirst(p: Piece, pieces: seq<Piece>, rest: string)
    requires IsPiece(p) && ArePieces(pieces) && IsHeard(pieces, rest, Consume(ShowAll(pieces) + rest))
    ensures IsHeard([p] + pieces, rest, Consume(ShowAll([p] + pieces) + rest))
  {
    var later := ShowAll(pieces) + rest;
    ShowMore(p, pieces, rest);
    PieceConsumed(p, later);
    HeardBefore(p, pieces, later, rest, Consume(later));
  }

  lemma {:induction false} PiecesAreHeard(pieces: seq<Piece>, rest: string)
    requires ArePieces(pieces) && Boundary(rest) == |rest|
    ensures IsHeard(pieces, rest, Consume(ShowAll(pieces) + rest))
  {
    if pieces == [] {
      assert ShowAll(pieces) + rest == rest;
    } else {
      PiecesAreHeard(pieces[1..], rest);
      HeardFirst(pieces[0], pieces[1..], rest);
      assert [pieces[0]] + pieces[1..] == pieces;
    }
  }

  /**
   Any text from any server in any chunks: it is a series of blocks, and what the client delivers is what
   they say, up to the first disconnect, whichever line ends they use.
   */
  lemma EveryStreamIsHeard(chunks: seq<string>) returns (pieces: seq<Piece>, rest: string)
    ensures ArePieces(pieces) && Flatten(chunks) == ShowAll(pieces) + rest && Boundary(rest) == |rest|
    ensures FeedAll(chunks).delivered == Heard(pieces) && FeedAll(chunks).stopped == Disconnects(pieces)
  {
    pieces, rest := EveryTextIsLaid(Flatten(chunks));
    PiecesAreHeard(pieces, rest);
    ChunkingDoesNotMatter(chunks);
  }

  /** Whoever writes the blocks, the same lines say the same. */
  lemma LineEndsDoNotMatter(a: seq<Piece>, b: seq<Piece>, chunks: seq<string>, others: seq<string>)
    requires ArePieces(a) && ArePieces(b) && |a| == |b| && forall i | 0 <= i < |a| :: a[i].lines == b[i].lines
    requires Flatten(chunks) == ShowAll(a) && Flatten(others) == ShowAll(b)
    ensures FeedAll(chunks).delivered == FeedAll(others).delivered == Heard(a)
    ensures FeedAll(chunks).stopped == FeedAll(others).stopped == Disconnects(a)
  {
    assert ShowAll(a) + "" == ShowAll(a) && ShowAll(b) + "" == ShowAll(b);
    PiecesAreHeard(a, "");
    PiecesAreHeard(b, "");
    ChunkingDoesNotMatter(chunks);
    ChunkingDoesNotMatter(others);
    SameLines(a, b);
  }

  lemma {:induction false} SameLines(a: seq<Piece>, b: seq<Piece>)
    requires |a| == |b| && forall i | 0 <= i < |a| :: a[i].lines == b[i].lines
    ensures Heard(a) == Heard(b) && Disconnects(a) == Disconnects(b)
  {
    if a != [] {
      SameLines(a[1..], b[1..]);
      assert forall q :: q in a <==> q == a[0] || q in a[1..];
      assert forall q :: q in b <==> q == b[0] || q in b[1..];
    }
  }
}
