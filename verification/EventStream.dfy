/**
 The diagnostics event stream: the gateway writes server-sent-event frames, the TypeScript client
 parses them incrementally. Text is modelled after UTF-8 decoding; a payload is arbitrary text.
 */
module EventStream {
  import opened Text

  // ---- Line ends and boundaries ---------------------------------------------------------------

  /** Length of a match of \r?\n at position i. */
  function NewlineAt(s: string, i: nat): nat {
    if i < |s| && s[i] == '\n' then 1
    else if i + 1 < |s| && s[i] == '\r' && s[i + 1] == '\n' then 2
    else 0
  }

  /** Length of a match of \r?\n\r?\n at position i. */
  function SeparatorAt(s: string, i: nat): nat {
    var first := NewlineAt(s, i);
    if first == 0 then 0
    else
      var second := NewlineAt(s, i + first);
      if second == 0 then 0 else first + second
  }

  /** The leftmost boundary at or after i; |s| when there is none. */
  function Boundary(s: string, i: nat := 0): (b: nat)
    requires i <= |s|
    ensures i <= b <= |s|
    ensures b < |s| ==> SeparatorAt(s, b) > 0 && b + SeparatorAt(s, b) <= |s|
    ensures forall j | i <= j < b :: SeparatorAt(s, j) == 0
    decreases |s| - i
  {
    if i == |s| || SeparatorAt(s, i) > 0 then i else Boundary(s, i + 1)
  }

  /** Whatever text arrives later, the first boundary found so far stays the first one. */
  lemma BoundaryIsStable(a: string, b: string)
    requires Boundary(a) < |a|
    ensures Boundary(a + b) == Boundary(a) && SeparatorAt(a + b, Boundary(a)) == SeparatorAt(a, Boundary(a))
  {
    var i, t := Boundary(a), a + b;
    forall j | 0 <= j < i ensures SeparatorAt(t, j) == 0 {
      assert SeparatorAt(a, j) == 0;
    }
    assert SeparatorAt(t, i) == SeparatorAt(a, i) > 0;
  }

  // ---- The parser -----------------------------------------------------------------------------

  datatype Verdict = Deliver(data: string) | Ignore | Disconnect

  /** `block.split(/\r?\n/)` */
  function Lines(s: string, i: nat := 0): seq<string>
    requires i <= |s|
    decreases |s| - i
  {
    if i == |s| then [s]
    else if NewlineAt(s, i) > 0 then [s[..i]] + Lines(s[i + NewlineAt(s, i)..])
    else Lines(s, i + 1)
  }

  const EventField := "event:"
  const DataField := "data:"

  datatype Fields = Fields(eventName: string, data: seq<string>)

  function ReadLine(f: Fields, line: string): Fields {
    var named := if EventField <= line then f.(eventName := Trim(line[|EventField|..], IsScriptSpace)) else f;
    if DataField <= line then named.(data := named.data + [TrimStart(line[|DataField|..], IsScriptSpace)]) else named
  }

  function ReadLines(f: Fields, lines: seq<string>): Fields {
    if lines == [] then f else ReadLine(ReadLines(f, lines[..|lines| - 1]), lines[|lines| - 1])
  }

  function Judge(f: Fields): Verdict {
    if f.eventName == "disconnect" then Disconnect
    else if f.eventName == "message" && f.data != [] then Deliver(Join(f.data, '\n'))
    else Ignore
  }

  function DispatchBlock(block: string): Verdict {
    Judge(ReadLines(Fields("message", []), Lines(block)))
  }

  /** What the client has done with the text so far. */
  datatype Outcome = Outcome(delivered: seq<string>, stopped: bool, rest: string)

  function After(verdict: Verdict, rest: string, later: Outcome): Outcome {
    match verdict
    case Disconnect => Outcome([], true, rest)
    case Ignore => later
    case Deliver(data) => Before([data], later)
  }

  /** Dispatches every complete block of the text. */
  function Consume(text: string): Outcome
    decreases |text|
  {
    var b := Boundary(text);
    if b == |text| then Outcome([], false, text)
    else
      var rest := text[b + SeparatorAt(text, b)..];
      After(DispatchBlock(text[..b]), rest, Consume(rest))
  }

  function Before(delivered: seq<string>, later: Outcome): Outcome {
    later.(delivered := delivered + later.delivered)
  }

  /** One more chunk arrives. */
  function Feed(o: Outcome, chunk: string): Outcome {
    if o.stopped then o else Before(o.delivered, Consume(o.rest + chunk))
  }

  function FeedAll(chunks: seq<string>): Outcome {
    if chunks == [] then Outcome([], false, "") else Feed(FeedAll(chunks[..|chunks| - 1]), chunks[|chunks| - 1])
  }

  function Flatten(chunks: seq<string>): string {
    if chunks == [] then "" else Flatten(chunks[..|chunks| - 1]) + chunks[|chunks| - 1]
  }

  /** `y` is what `x` becomes when the text after `x` is consumed to `z`. */
  predicate Continues(x: Outcome, z: Outcome, y: Outcome) {
    if x.stopped then y.stopped && y.delivered == x.delivered else y == Before(x.delivered, z)
  }

  lemma AfterContinues(v: Verdict, a: string, b: string, x: Outcome, z: Outcome, y: Outcome)
    requires Continues(x, z, y)
    ensures Continues(After(v, a, x), z, After(v, b, y))
    ensures After(v, a, x).stopped || After(v, a, x).rest == x.rest
  {
  }

  lemma ConsumeFirst(text: string, block: string, rest: string)
    requires Boundary(text) < |text|
    requires block == text[..Boundary(text)] && rest == text[Boundary(text) + SeparatorAt(text, Boundary(text))..]
    ensures Consume(text) == After(DispatchBlock(block), rest, Consume(rest))
  {
  }

  lemma SameFirst(a: string, b: string) returns (block: string, rest: string)
    requires Boundary(a) < |a|
    ensures block == a[..Boundary(a)] && rest == a[Boundary(a) + SeparatorAt(a, Boundary(a))..] && |rest| < |a|
    ensures Boundary(a + b) < |a + b| && block == (a + b)[..Boundary(a + b)]
    ensures rest + b == (a + b)[Boundary(a + b) + SeparatorAt(a + b, Boundary(a + b))..]
  {
    var i := Boundary(a);
    BoundaryIsStable(a, b);
    block, rest := a[..i], a[i + SeparatorAt(a, i)..];
  }

  /** The first block of a text is also the first block of every longer one. */
  lemma CutFirst(a: string, b: string) returns (v: Verdict, rest: string)
    requires Boundary(a) < |a|
    ensures |rest| < |a|
    ensures Consume(a) == After(v, rest, Consume(rest))
    ensures Consume(a + b) == After(v, rest + b, Consume(rest + b))
  {
    var block;
    block, rest := SameFirst(a, b);
    v := DispatchBlock(block);
    ConsumeFirst(a, block, rest);
    ConsumeFirst(a + b, block, rest + b);
  }

  lemma {:induction false} FeedContinues(a: string, b: string)
    ensures Continues(Consume(a), Consume(Consume(a).rest + b), Consume(a + b))
    decreases |a|
  {
    if Boundary(a) == |a| {
      assert Consume(a) == Outcome([], false, a);
    } else {
      var v, rest := CutFirst(a, b);
      FeedContinues(rest, b);
      AfterContinues(v, rest, rest + b, Consume(rest), Consume(Consume(rest).rest + b), Consume(rest + b));
    }
  }

  /**
   Any text, from any server, in any chunks: what is delivered, and whether the stream stops, depend on
   the text alone.
   */
  lemma {:induction false} ChunkingDoesNotMatter(chunks: seq<string>)
    ensures FeedAll(chunks).delivered == Consume(Flatten(chunks)).delivered
    ensures FeedAll(chunks).stopped == Consume(Flatten(chunks)).stopped
    ensures !FeedAll(chunks).stopped ==> FeedAll(chunks) == Consume(Flatten(chunks))
  {
    if chunks != [] {
      var init, last := chunks[..|chunks| - 1], chunks[|chunks| - 1];
      ChunkingDoesNotMatter(init);
      FeedContinues(Flatten(init), last);
    }
  }

  /** The inner loop of the client: dispatch while the buffer holds a boundary. */
  method DispatchBuffer(text: string) returns (delivered: seq<string>, stopped: bool, buffer: string)
    ensures Outcome(delivered, stopped, buffer) == Consume(text)
  {
    delivered, buffer := [], text;
    var boundary := Boundary(buffer);
    while boundary < |buffer|
      invariant boundary == Boundary(buffer)
      invariant Before(delivered, Consume(buffer)) == Consume(text)
      decreases |buffer|
    {
      var separator := SeparatorAt(buffer, boundary);
      var block := buffer[..boundary];
      var rest := buffer[boundary + separator..];
      var verdict := DispatchStreamBlock(block);
      assert Consume(buffer) == After(verdict, rest, Consume(rest));
      buffer := rest;
      if verdict.Disconnect? {
        return delivered, true, buffer;
      }
      if verdict.Deliver? {
        delivered := delivered + [verdict.data];
      }
      boundary := Boundary(buffer);
    }
    return delivered, false, buffer;
  }

  /** The outer loop: one chunk after another, until the server disconnects or the stream ends. */
  method ConsumeStream(chunks: seq<string>) returns (delivered: seq<string>, stopped: bool)
    ensures delivered == Consume(Flatten(chunks)).delivered && stopped == Consume(Flatten(chunks)).stopped
  {
    var buffer := "";
    delivered, stopped := [], false;
    for n := 0 to |chunks|
      invariant !stopped && FeedAll(chunks[..n]) == Outcome(delivered, stopped, buffer)
    {
      assert chunks[..n + 1][..n] == chunks[..n];
      var more, halted, rest := DispatchBuffer(buffer + chunks[n]);
      delivered, stopped, buffer := delivered + more, halted, rest;
      if stopped {
        FeedStops(chunks, n + 1);
        ChunkingDoesNotMatter(chunks);
        return;
      }
    }
    assert chunks[..|chunks|] == chunks;
    ChunkingDoesNotMatter(chunks);
  }

  lemma {:induction false} FeedStops(chunks: seq<string>, n: nat)
    requires n <= |chunks| && FeedAll(chunks[..n]).stopped
    ensures FeedAll(chunks) == FeedAll(chunks[..n])
  {
    if n == |chunks| {
      assert chunks[..n] == chunks;
    } else {
      assert chunks[..|chunks| - 1][..n] == chunks[..n];
      FeedStops(chunks[..|chunks| - 1], n);
    }
  }

  method DispatchStreamBlock(block: string) returns (verdict: Verdict)
    ensures verdict == DispatchBlock(block)
  {
    var eventName, data := "message", [];
    var lines := Lines(block);
    for n := 0 to |lines|
      invariant Fields(eventName, data) == ReadLines(Fields("message", []), lines[..n])
    {
      assert lines[..n + 1][..n] == lines[..n];
      var line := lines[n];
      if EventField <= line {
        eventName := Trim(line[|EventField|..], IsScriptSpace);
      }
      if DataField <= line {
        data := data + [TrimStart(line[|DataField|..], IsScriptSpace)];
      }
    }
    assert lines[..|lines|] == lines;
    if eventName == "disconnect" {
      return Disconnect;
    }
    if eventName == "message" && data != [] {
      return Deliver(Join(data, '\n'));
    }
    return Ignore;
  }

  // ---- The writer -----------------------------------------------------------------------------

  datatype Frame = Data(payload: string) | Heartbeat | RateLimited

  const HeartbeatLine := ": heartbeat"
  const DisconnectLine := "event: disconnect"
  const ReasonLine := "data: {\"reason\":\"rate_limit\"}"

  function Block(f: Frame): string {
    match f
    case Data(payload) => "data: " + payload
    case Heartbeat => HeartbeatLine
    case RateLimited => DisconnectLine + "\n" + ReasonLine
  }

  function Encode(frames: seq<Frame>): string {
    if frames == [] then "" else Block(frames[0]) + "\n\n" + Encode(frames[1..])
  }

  /** Serialized JSON: no line ends, no leading white space. */
  predicate Clean(payload: string) {
    && '\r' !in payload && '\n' !in payload
    && (payload != "" ==> !IsScriptSpace(payload[0]))
  }

  /** The payloads before the first disconnect. */
  function Payloads(frames: seq<Frame>): seq<string> {
    if frames == [] then []
    else match frames[0]
      case Data(payload) => [payload] + Payloads(frames[1..])
      case Heartbeat => Payloads(frames[1..])
      case RateLimited => []
  }

  /** A block without a blank line in it ends at the blank line that follows it. */
  lemma BlockEnds(block: string, rest: string)
    requires '\r' !in block
    requires forall j | 0 <= j < |block| && block[j] == '\n' :: j + 1 < |block| && block[j + 1] != '\n'
    ensures var s := block + "\n\n" + rest; Boundary(s) == |block| && SeparatorAt(s, |block|) == 2
  {
    var s := block + "\n\n" + rest;
    forall j | 0 <= j < |block| ensures SeparatorAt(s, j) == 0 {
      assert s[j] == block[j] && s[j] != '\r';
      if j + 1 < |block| {
        assert s[j + 1] == block[j + 1] && s[j + 1] != '\r';
      }
    }
    assert NewlineAt(s, |block|) == 1 && NewlineAt(s, |block| + 1) == 1;
    assert SeparatorAt(s, |block|) == 2;
    assert Boundary(s) >= |block|;
  }

  lemma {:induction false} WholeLine(s: string, i: nat)
    requires i <= |s| && '\n' !in s[i..]
    ensures Lines(s, i) == [s]
    decreases |s| - i
  {
    if i < |s| {
      assert s[i] == s[i..][0];
      assert i + 1 < |s| ==> s[i + 1] == s[i..][1];
      assert s[i + 1..] == s[i..][1..];
      WholeLine(s, i + 1);
    }
  }

  lemma {:induction false} TwoLines(a: string, b: string, i: nat)
    requires '\n' !in a && '\r' !in a && '\n' !in b && i <= |a|
    ensures Lines(a + "\n" + b, i) == [a, b]
    decreases |a| - i
  {
    var s := a + "\n" + b;
    if i < |a| {
      assert s[i] == a[i];
      TwoLines(a, b, i + 1);
    } else {
      assert s[..i] == a && s[i + 1..] == b && b[0..] == b;
      WholeLine(b, 0);
    }
  }

  lemma DataBlock(payload: string)
    requires Clean(payload)
    ensures DispatchBlock("data: " + payload) == Deliver(payload)
  {
    var line := "data: " + payload;
    assert line[0..] == line;
    WholeLine(line, 0);
    FieldOf(line);
    assert line[5..] == " " + payload && (" " + payload)[1..] == payload;
    assert DataField <= line;
    ReadOne(Fields("message", []), line);
    assert TrimStart(" " + payload, IsScriptSpace) == TrimStart(payload, IsScriptSpace) == payload;
  }

  lemma FieldOf(line: string)
    ensures EventField <= line ==> line != "" && line[0] == 'e'
    ensures DataField <= line ==> line != "" && line[0] == 'd'
  {
    assert EventField[0] == 'e' && DataField[0] == 'd';
  }

  lemma ReadOne(f: Fields, line: string)
    ensures ReadLines(f, [line]) == ReadLine(f, line)
  {
    assert [line][..0] == [];
  }

  lemma OtherBlock(line: string)
    requires '\n' !in line && line != "" && line[0] != 'e' && line[0] != 'd'
    ensures DispatchBlock(line) == Ignore
  {
    assert line[0..] == line;
    WholeLine(line, 0);
    FieldOf(line);
    ReadOne(Fields("message", []), line);
  }

  lemma DisconnectBlock(name: string, second: string)
    requires '\n' !in name && '\r' !in name && '\n' !in second
    requires EventField <= name && Trim(name[|EventField|..], IsScriptSpace) == "disconnect" && name[0] == 'e'
    requires second != "" && second[0] == 'd'
    ensures DispatchBlock(name + "\n" + second) == Disconnect
  {
    TwoLines(name, second, 0);
    FieldOf(name);
    FieldOf(second);
    ReadOne(Fields("message", []), name);
    assert [name, second][..1] == [name];
    assert ReadLines(Fields("message", []), [name, second])
           == ReadLine(ReadLine(Fields("message", []), name), second);
  }

  lemma DisconnectName()
    ensures EventField <= DisconnectLine && Trim(DisconnectLine[|EventField|..], IsScriptSpace) == "disconnect"
  {
    var name := "disconnect";
    assert DisconnectLine[|EventField|..] == " " + name;
    assert (" " + name)[1..] == name;
    assert TrimStart(" " + name, IsScriptSpace) == TrimStart(name, IsScriptSpace) == name;
  }

  lemma BlocksAreQuiet(f: Frame)
    requires f.Data? ==> Clean(f.payload)
    ensures '\r' !in Block(f)
    ensures forall j | 0 <= j < |Block(f)| && Block(f)[j] == '\n' :: j + 1 < |Block(f)| && Block(f)[j + 1] != '\n'
  {
  }

  lemma RoundTripFirst(f: Frame, tail: seq<Frame>)
    requires f.Data? ==> Clean(f.payload)
    requires Consume(Encode(tail)).delivered == Payloads(tail)
    requires Consume(Encode(tail)).stopped <==> RateLimited in tail
    ensures Consume(Encode([f] + tail)).delivered == Payloads([f] + tail)
    ensures Consume(Encode([f] + tail)).stopped <==> RateLimited in [f] + tail
  {
    assert ([f] + tail)[1..] == tail;
    FrameConsumed(f, Encode(tail));
    ReadFirst(f, tail, Encode(tail), Consume(Encode(tail)));
  }

  /**
   What the server writes is what the client delivers: exactly the payloads before the first
   disconnect, and it stops exactly when there is one.
   */
  lemma {:induction false} RoundTrip(frames: seq<Frame>)
    requires forall f | f in frames && f.Data? :: Clean(f.payload)
    ensures Consume(Encode(frames)).delivered == Payloads(frames)
    ensures Consume(Encode(frames)).stopped <==> RateLimited in frames
  {
    if frames != [] {
      RoundTrip(frames[1..]);
      RoundTripFirst(frames[0], frames[1..]);
      assert frames == [frames[0]] + frames[1..];
    }
  }

  lemma ReadFirst(f: Frame, tail: seq<Frame>, rest: string, later: Outcome)
    requires later.delivered == Payloads(tail) && (later.stopped <==> RateLimited in tail)
    ensures var o := After(Read(f), rest, later);
            o.delivered == Payloads([f] + tail) && (o.stopped <==> RateLimited in [f] + tail)
  {
    assert ([f] + tail)[1..] == tail;
  }

  function Read(f: Frame): Verdict {
    match f
    case Data(payload) => Deliver(payload)
    case Heartbeat => Ignore
    case RateLimited => Disconnect
  }

  lemma FrameRead(f: Frame)
    requires f.Data? ==> Clean(f.payload)
    ensures DispatchBlock(Block(f)) == Read(f)
  {
    match f
    case Data(payload) => DataBlock(payload);
    case Heartbeat => OtherBlock(HeartbeatLine);
    case RateLimited =>
      DisconnectName();
      DisconnectBlock(DisconnectLine, ReasonLine);
  }

  lemma FrameConsumed(f: Frame, rest: string)
    requires f.Data? ==> Clean(f.payload)
    ensures Consume(Block(f) + "\n\n" + rest) == After(Read(f), rest, Consume(rest))
  {
    var block := Block(f);
    var text := block + "\n\n" + rest;
    BlocksAreQuiet(f);
    BlockEnds(block, rest);
    FrameRead(f);
    assert text[..|block|] == block && text[|block| + 2..] == rest;
  }

  /** ... in whatever chunks the text arrives. */
  lemma StreamRoundTrip(frames: seq<Frame>, chunks: seq<string>)
    requires forall f | f in frames && f.Data? :: Clean(f.payload)
    requires Flatten(chunks) == Encode(frames)
    ensures FeedAll(chunks).delivered == Payloads(frames)
    ensures FeedAll(chunks).stopped <==> RateLimited in frames
  {
    ChunkingDoesNotMatter(chunks);
    RoundTrip(frames);
  }

  // ---- A stream cut in the middle -------------------------------------------------------------

  /** How many frames have arrived complete. */
  function Complete(frames: seq<Frame>, text: string): nat {
    if frames == [] || !(Block(frames[0]) + "\n\n" <= text) then 0
    else 1 + Complete(frames[1..], text[|Block(frames[0])| + 2..])
  }

  /** Less than a whole frame holds no boundary. */
  lemma PartialFrame(f: Frame, text: string)
    requires f.Data? ==> Clean(f.payload)
    requires text < Block(f) + "\n\n"
    ensures Consume(text) == Outcome([], false, text)
  {
    BlocksAreQuiet(f);
    forall j | 0 <= j < |text|
      ensures SeparatorAt(text, j) == 0
    {
      assert j < |Block(f)| ==> text[j] == Block(f)[j];
    }
  }

  /** A piece of the encoded text either ends inside the first frame or goes on after it. */
  lemma SplitFirst(frames: seq<Frame>, text: string) returns (whole: bool, rest: string)
    requires frames != [] && text <= Encode(frames)
    ensures !whole ==> text < Block(frames[0]) + "\n\n"
    ensures whole ==> text == Block(frames[0]) + "\n\n" + rest && rest <= Encode(frames[1..])
  {
    var first := Block(frames[0]) + "\n\n";
    whole, rest := |text| >= |first|, "";
    assert Encode(frames) == first + Encode(frames[1..]);
    if whole {
      assert text[..|first|] == first;
      rest := text[|first|..];
    }
  }

  ghost predicate Reads(text: string, done: seq<Frame>) {
    Consume(text).delivered == Payloads(done) && (Consume(text).stopped <==> RateLimited in done)
  }

  ghost predicate IsCut(frames: seq<Frame>, text: string) {
    Complete(frames, text) <= |frames| && Reads(text, frames[..Complete(frames, text)])
  }

  lemma CutInside(frames: seq<Frame>, text: string)
    requires frames != [] && (frames[0].Data? ==> Clean(frames[0].payload))
    requires text < Block(frames[0]) + "\n\n"
    ensures IsCut(frames, text)
  {
    PartialFrame(frames[0], text);
    assert frames[..0] == [];
  }

  lemma CutLater(frames: seq<Frame>, text: string, rest: string)
    requires frames != [] && (frames[0].Data? ==> Clean(frames[0].payload))
    requires text == Block(frames[0]) + "\n\n" + rest && IsCut(frames[1..], rest)
    ensures IsCut(frames, text)
  {
    var k := Complete(frames[1..], rest);
    CompleteLater(frames, text, rest);
    ReadsLater(frames[0], frames[1..][..k], text, rest);
    FirstOf(frames, k);
  }

  lemma FirstOf(frames: seq<Frame>, k: nat)
    requires k < |frames|
    ensures frames[..k + 1] == [frames[0]] + frames[1..][..k]
  {
  }

  lemma CompleteLater(frames: seq<Frame>, text: string, rest: string)
    requires frames != [] && text == Block(frames[0]) + "\n\n" + rest
    ensures Complete(frames, text) == 1 + Complete(frames[1..], rest)
  {
    assert text[|Block(frames[0])| + 2..] == rest;
  }

  lemma ReadsLater(f: Frame, done: seq<Frame>, text: string, rest: string)
    requires (f.Data? ==> Clean(f.payload)) && text == Block(f) + "\n\n" + rest && Reads(rest, done)
    ensures Reads(text, [f] + done)
  {
    FrameConsumed(f, rest);
    ReadFirst(f, done, rest, Consume(rest));
  }

  /**
   The writer may be stopped anywhere, also inside a frame. The client then delivers the payloads of the
   frames that arrived complete, and stops exactly if a disconnect is among them.
   */
  lemma {:induction false} CutRoundTrip(frames: seq<Frame>, text: string)
    requires forall f | f in frames && f.Data? :: Clean(f.payload)
    requires text <= Encode(frames)
    ensures Complete(frames, text) <= |frames|
    ensures Consume(text).delivered == Payloads(frames[..Complete(frames, text)])
    ensures Consume(text).stopped <==> RateLimited in frames[..Complete(frames, text)]
  {
    if frames != [] {
      var whole, rest := SplitFirst(frames, text);
      if whole {
        CutRoundTrip(frames[1..], rest);
        CutLater(frames, text, rest);
      } else {
        CutInside(frames, text);
      }
    }
  }

  // ---- The rate limit -------------------------------------------------------------------------

  /** `size` is the UTF-8 byte count. */
  datatype Limits = Limits(events: nat, bytes: nat, size: string -> nat)

  /** What the writer waits for: nothing for 15 seconds, or an item; `elapsed` starts a new one-second window. */
  datatype Input = Timeout | Item(payload: string, included: bool, elapsed: bool)

  function Written(inputs: seq<Input>, limits: Limits, events: nat, bytes: nat): seq<Frame> {
    if inputs == [] then []
    else match inputs[0]
      case Timeout => [Heartbeat] + Written(inputs[1..], limits, events, bytes)
      case Item(payload, included, elapsed) =>
        if !included then Written(inputs[1..], limits, events, bytes)
        else
          var e := (if elapsed then 0 else events) + 1;
          var b := (if elapsed then 0 else bytes) + limits.size(payload);
          if e > limits.events || b > limits.bytes then [RateLimited]
          else [Data(payload)] + Written(inputs[1..], limits, e, b)
  }

  function Included(inputs: seq<Input>): seq<string> {
    if inputs == [] then []
    else (if inputs[0].Item? && inputs[0].included then [inputs[0].payload] else []) + Included(inputs[1..])
  }

  function Total(payloads: seq<string>, size: string -> nat): nat {
    if payloads == [] then 0 else size(payloads[0]) + Total(payloads[1..], size)
  }

  method StreamItems(inputs: seq<Input>, limits: Limits) returns (frames: seq<Frame>)
    ensures frames == Written(inputs, limits, 0, 0)
    ensures IsWrittenUpTo(inputs, limits, frames)
  {
    var events: nat, bytes: nat := 0, 0;
    frames := [];
    assert inputs[0..] == inputs;
    for n := 0 to |inputs|
      invariant frames + Written(inputs[n..], limits, events, bytes) == Written(inputs, limits, 0, 0)
    {
      assert inputs[n..][1..] == inputs[n + 1..] && inputs[n..][0] == inputs[n];
      match inputs[n]
      case Timeout => frames := frames + [Heartbeat];
      case Item(payload, included, elapsed) =>
        if included {
          if elapsed {
            events, bytes := 0, 0;
          }
          events := events + 1;
          bytes := bytes + limits.size(payload);
          if events > limits.events || bytes > limits.bytes {
            frames := frames + [RateLimited];
            WrittenIsUpTo(inputs, limits);
            return;
          }
          frames := frames + [Data(payload)];
        }
    }
    WrittenIsUpTo(inputs, limits);
  }

  /** Within one window no more events and bytes are written than the limits allow. */
  lemma {:induction false} WindowIsBounded(inputs: seq<Input>, limits: Limits, events: nat, bytes: nat)
    requires events <= limits.events && bytes <= limits.bytes
    requires forall i | 0 <= i < |inputs| && inputs[i].Item? :: !inputs[i].elapsed
    ensures var sent := Payloads(Written(inputs, limits, events, bytes));
            events + |sent| <= limits.events && bytes + Total(sent, limits.size) <= limits.bytes
  {
    if inputs != [] {
      var frames := Written(inputs, limits, events, bytes);
      match inputs[0]
      case Timeout =>
        WindowIsBounded(inputs[1..], limits, events, bytes);
        assert frames[1..] == Written(inputs[1..], limits, events, bytes);
      case Item(payload, included, _) =>
        if !included {
          WindowIsBounded(inputs[1..], limits, events, bytes);
        } else if events + 1 <= limits.events && bytes + limits.size(payload) <= limits.bytes {
          WindowIsBounded(inputs[1..], limits, events + 1, bytes + limits.size(payload));
          assert frames[1..] == Written(inputs[1..], limits, events + 1, bytes + limits.size(payload));
        }
    }
  }

  /** Items are written in order without gaps: all of them, unless the rate limit cut the stream. */
  lemma {:induction false} WrittenItems(inputs: seq<Input>, limits: Limits, events: nat, bytes: nat)
    ensures var frames := Written(inputs, limits, events, bytes);
            && Payloads(frames) <= Included(inputs)
            && (RateLimited !in frames ==> Payloads(frames) == Included(inputs))
            && (forall f | f in frames && f.Data? :: f.payload in Included(inputs))
  {
    if inputs != [] {
      var frames := Written(inputs, limits, events, bytes);
      if inputs[0].Timeout? {
        WrittenItems(inputs[1..], limits, events, bytes);
        assert frames[1..] == Written(inputs[1..], limits, events, bytes);
      } else if !inputs[0].included {
        WrittenItems(inputs[1..], limits, events, bytes);
      } else {
        var e := (if inputs[0].elapsed then 0 else events) + 1;
        var b := (if inputs[0].elapsed then 0 else bytes) + limits.size(inputs[0].payload);
        WrittenItems(inputs[1..], limits, e, b);
        assert frames[0].Data? ==> frames[1..] == Written(inputs[1..], limits, e, b);
      }
    }
  }

  // ---- When the rate limit acts ---------------------------------------------------------------

  predicate IsIncluded(input: Input) {
    input.Item? && input.included
  }

  /** The item finds its window over and starts a new one. */
  predicate StartsWindow(input: Input) {
    IsIncluded(input) && input.elapsed
  }

  /** The window of position `k` starts at `start`: with the stream or with the last item that starts one. */
  ghost predicate IsWindowStart(inputs: seq<Input>, start: nat, k: nat) {
    && start <= k <= |inputs| && (start == 0 || (start < k && StartsWindow(inputs[start])))
    && forall i | start < i < k :: !StartsWindow(inputs[i])
  }

  ghost predicate IsOver(payloads: seq<string>, limits: Limits) {
    |payloads| > limits.events || Total(payloads, limits.size) > limits.bytes
  }

  ghost predicate IsOverSince(inputs: seq<Input>, limits: Limits, start: nat, k: nat)
    requires k < |inputs|
  {
    IsWindowStart(inputs, start, k + 1) && IsOver(Included(inputs[start..k + 1]), limits)
  }

  /** Item `k` takes the events or the bytes of its window over a limit. */
  ghost predicate Exceeds(inputs: seq<Input>, limits: Limits, k: nat)
    requires k < |inputs|
  {
    IsIncluded(inputs[k]) && exists start: nat :: IsOverSince(inputs, limits, start, k)
  }

  /** Every timeout a heartbeat, every included item a frame of its own. */
  function Plain(inputs: seq<Input>): seq<Frame> {
    if inputs == [] then []
    else
      (match inputs[0]
       case Timeout => [Heartbeat]
       case Item(payload, included, _) => if included then [Data(payload)] else [])
      + Plain(inputs[1..])
  }

  function Timeouts(inputs: seq<Input>): nat {
    if inputs == [] then 0 else (if inputs[0].Timeout? then 1 else 0) + Timeouts(inputs[1..])
  }

  function Heartbeats(frames: seq<Frame>): nat {
    if frames == [] then 0 else (if frames[0].Heartbeat? then 1 else 0) + Heartbeats(frames[1..])
  }

  lemma {:induction false} PlainIsExact(inputs: seq<Input>)
    ensures Payloads(Plain(inputs)) == Included(inputs) && Heartbeats(Plain(inputs)) == Timeouts(inputs)
    ensures RateLimited !in Plain(inputs)
  {
    if inputs != [] {
      PlainIsExact(inputs[1..]);
      var frames := Plain(inputs);
      if inputs[0].Timeout? || inputs[0].included {
        assert frames[1..] == Plain(inputs[1..]);
      } else {
        assert frames == Plain(inputs[1..]);
      }
    }
  }

  lemma {:induction false} IncludedAppend(a: seq<Input>, x: Input)
    ensures Included(a + [x]) == Included(a) + (if IsIncluded(x) then [x.payload] else [])
  {
    if a == [] {
      assert a + [x] == [x] && [x][1..] == [];
    } else {
      assert (a + [x])[1..] == a[1..] + [x];
      IncludedAppend(a[1..], x);
    }
  }

  lemma {:induction false} TotalAppend(payloads: seq<string>, p: string, size: string -> nat)
    ensures Total(payloads + [p], size) == Total(payloads, size) + size(p)
  {
    if payloads == [] {
      assert payloads + [p] == [p] && [p][1..] == [];
    } else {
      assert (payloads + [p])[1..] == payloads[1..] + [p];
      TotalAppend(payloads[1..], p, size);
    }
  }

  lemma OneWindowStart(inputs: seq<Input>, a: nat, b: nat, k: nat)
    requires IsWindowStart(inputs, a, k) && IsWindowStart(inputs, b, k)
    ensures a == b
  {
  }

  /** What the window holds with the next item. */
  lemma WindowGrows(inputs: seq<Input>, start: nat, n: nat, limits: Limits) returns (next: nat)
    requires n < |inputs| && IsWindowStart(inputs, start, n)
    ensures IsWindowStart(inputs, next, n + 1) && next == if StartsWindow(inputs[n]) then n else start
    ensures var before, window := Included(inputs[start..n]), Included(inputs[next..n + 1]);
            var kept := if StartsWindow(inputs[n]) then [] else before;
            window == kept + (if IsIncluded(inputs[n]) then [inputs[n].payload] else [])
    ensures IsIncluded(inputs[n]) ==>
              (Exceeds(inputs, limits, n) <==> IsOver(Included(inputs[next..n + 1]), limits))
  {
    next := if StartsWindow(inputs[n]) then n else start;
    assert inputs[next..n + 1] == inputs[next..n] + [inputs[n]];
    IncludedAppend(inputs[next..n], inputs[n]);
    assert next == n ==> inputs[next..n] == [];
    if Exceeds(inputs, limits, n) {
      var other: nat :| IsOverSince(inputs, limits, other, n);
      OneWindowStart(inputs, other, next, n + 1);
    } else {
      assert IsIncluded(inputs[n]) ==> !IsOverSince(inputs, limits, next, n);
    }
  }

  /** What the writer does with the rest, when its counters are those of the current window. */
  ghost predicate WritesRest(inputs: seq<Input>, limits: Limits, n: nat, k: nat, frames: seq<Frame>) {
    && n <= k <= |inputs| && (forall i | n <= i < k :: !Exceeds(inputs, limits, i))
    && (k < |inputs| ==> Exceeds(inputs, limits, k))
    && frames == Plain(inputs[n..k]) + (if k < |inputs| then [RateLimited] else [])
  }

  lemma WritesMore(inputs: seq<Input>, limits: Limits, n: nat, k: nat, frames: seq<Frame>)
    requires n < |inputs| && WritesRest(inputs, limits, n + 1, k, frames) && !Exceeds(inputs, limits, n)
    ensures WritesRest(inputs, limits, n, k, Plain([inputs[n]]) + frames)
  {
    assert inputs[n..k][1..] == inputs[n + 1..k];
    assert Plain([inputs[n]][1..]) == [];
  }

  lemma {:induction false} WrittenFrom(inputs: seq<Input>, limits: Limits, start: nat, n: nat) returns (k: nat)
    requires IsWindowStart(inputs, start, n)
    ensures var window := Included(inputs[start..n]);
            WritesRest(inputs, limits, n, k, Written(inputs[n..], limits, |window|, Total(window, limits.size)))
    decreases |inputs| - n
  {
    k := n;
    if n < |inputs| {
      var window := Included(inputs[start..n]);
      var next := WindowGrows(inputs, start, n, limits);
      if IsIncluded(inputs[n]) {
        TotalAppend(if StartsWindow(inputs[n]) then [] else window, inputs[n].payload, limits.size);
      }
      assert inputs[n..][1..] == inputs[n + 1..];
      if !Exceeds(inputs, limits, n) {
        k := WrittenFrom(inputs, limits, next, n + 1);
        var later := Included(inputs[next..n + 1]);
        var rest := Written(inputs[n + 1..], limits, |later|, Total(later, limits.size));
        WritesMore(inputs, limits, n, k, rest);
        WrittenOne(inputs[n..], limits, window, later);
      } else {
        assert inputs[n..n] == [];
      }
    }
  }

  lemma PlainOne(input: Input)
    ensures Plain([input]) == match input
                              case Timeout => [Heartbeat]
                              case Item(payload, included, _) => if included then [Data(payload)] else []
  {
    assert [input][1..] == [];
  }

  lemma WrittenItem(inputs: seq<Input>, limits: Limits, events: nat, bytes: nat, e: nat, b: nat)
    requires inputs != [] && IsIncluded(inputs[0]) && e <= limits.events && b <= limits.bytes
    requires e == (if inputs[0].elapsed then 0 else events) + 1
    requires b == (if inputs[0].elapsed then 0 else bytes) + limits.size(inputs[0].payload)
    ensures Written(inputs, limits, events, bytes)
            == [Data(inputs[0].payload)] + Written(inputs[1..], limits, e, b)
  {
  }

  /** One step of the writer that does not exceed a limit. */
  lemma WrittenOne(inputs: seq<Input>, limits: Limits, window: seq<string>, later: seq<string>)
    requires inputs != [] && (IsIncluded(inputs[0]) ==> !IsOver(later, limits))
    requires var kept := if StartsWindow(inputs[0]) then [] else window;
             later == kept + (if IsIncluded(inputs[0]) then [inputs[0].payload] else [])
    ensures Written(inputs, limits, |window|, Total(window, limits.size))
            == Plain([inputs[0]]) + Written(inputs[1..], limits, |later|, Total(later, limits.size))
  {
    PlainOne(inputs[0]);
    var events, bytes := |window|, Total(window, limits.size);
    if IsIncluded(inputs[0]) {
      TotalAppend(if inputs[0].elapsed then [] else window, inputs[0].payload, limits.size);
      WrittenItem(inputs, limits, events, bytes, |later|, Total(later, limits.size));
    } else {
      assert later == window;
      if inputs[0].Item? {
        WrittenSkips(inputs, limits, events, bytes);
      }
    }
  }

  lemma WrittenSkips(inputs: seq<Input>, limits: Limits, events: nat, bytes: nat)
    requires inputs != [] && inputs[0].Item? && !inputs[0].included
    ensures Written(inputs, limits, events, bytes) == [] + Written(inputs[1..], limits, events, bytes)
  {
  }

  /** All that came before `k`, and then the disconnect for `k`, the first to exceed its window, if there is one. */
  ghost predicate WritesUpTo(inputs: seq<Input>, limits: Limits, k: nat, frames: seq<Frame>) {
    && k <= |inputs| && (forall i | 0 <= i < k :: !Exceeds(inputs, limits, i))
    && (k < |inputs| ==> Exceeds(inputs, limits, k))
    && frames == Plain(inputs[..k]) + (if k < |inputs| then [RateLimited] else [])
  }

  /**
   Exactly what is written: up to the first item that takes its window over a limit, a heartbeat for every
   timeout and a frame for every included item; then the disconnect and nothing more. Without such an item
   everything is written.
   */
  lemma WrittenExactly(inputs: seq<Input>, limits: Limits) returns (k: nat)
    ensures WritesUpTo(inputs, limits, k, Written(inputs, limits, 0, 0))
  {
    k := WrittenFrom(inputs, limits, 0, 0);
    assert inputs[0..] == inputs && inputs[0..k] == inputs[..k];
  }

  ghost predicate IsWrittenUpTo(inputs: seq<Input>, limits: Limits, frames: seq<Frame>) {
    exists k: nat :: WritesUpTo(inputs, limits, k, frames)
  }

  lemma WrittenIsUpTo(inputs: seq<Input>, limits: Limits)
    ensures IsWrittenUpTo(inputs, limits, Written(inputs, limits, 0, 0))
  {
    var k := WrittenExactly(inputs, limits);
  }

  /** The client is disconnected exactly if some item takes the events or bytes of its window over a limit. */
  lemma RateLimitedIff(inputs: seq<Input>, limits: Limits)
    ensures RateLimited in Written(inputs, limits, 0, 0) <==>
            exists k :: 0 <= k < |inputs| && Exceeds(inputs, limits, k)
  {
    var k := WrittenExactly(inputs, limits);
    PlainIsExact(inputs[..k]);
    if k < |inputs| {
      assert Written(inputs, limits, 0, 0)[|Plain(inputs[..k])|] == RateLimited;
    }
  }

  /** An item that starts a window and fits the limits on its own is written, whatever was counted before. */
  lemma NewWindowIsWritten(inputs: seq<Input>, limits: Limits, events: nat, bytes: nat)
    requires inputs != [] && StartsWindow(inputs[0]) && !IsOver([inputs[0].payload], limits)
    ensures Written(inputs, limits, events, bytes) != []
            && Written(inputs, limits, events, bytes)[0] == Data(inputs[0].payload)
  {
    assert [inputs[0].payload][1..] == [];
  }

  lemma {:induction false} PayloadsPrefix(frames: seq<Frame>, k: nat)
    requires k <= |frames|
    ensures Payloads(frames[..k]) <= Payloads(frames)
  {
    if k > 0 {
      PayloadsPrefix(frames[1..], k - 1);
      assert frames[..k][1..] == frames[1..][..k - 1];
    }
  }

  /**
   Server to client, wherever the duration or a disconnect cuts the stream: the client delivers included
   items in order without gaps and stops only if an item took its window over a limit; with the whole text
   it stops exactly then, and has all of them otherwise.
   */
  lemma EndToEnd(inputs: seq<Input>, limits: Limits, chunks: seq<string>)
    requires forall p | p in Included(inputs) :: Clean(p)
    requires Flatten(chunks) <= Encode(Written(inputs, limits, 0, 0))
    ensures FeedAll(chunks).delivered <= Included(inputs)
    ensures FeedAll(chunks).stopped ==> exists k :: 0 <= k < |inputs| && Exceeds(inputs, limits, k)
    ensures Flatten(chunks) == Encode(Written(inputs, limits, 0, 0)) ==>
              && (FeedAll(chunks).stopped <==> exists k :: 0 <= k < |inputs| && Exceeds(inputs, limits, k))
              && (!FeedAll(chunks).stopped ==> FeedAll(chunks).delivered == Included(inputs))
  {
    var frames, text := Written(inputs, limits, 0, 0), Flatten(chunks);
    RateLimitedIff(inputs, limits);
    WrittenItems(inputs, limits, 0, 0);
    ChunkingDoesNotMatter(chunks);
    CutRoundTrip(frames, text);
    PayloadsPrefix(frames, Complete(frames, text));
    if text == Encode(frames) {
      StreamRoundTrip(frames, chunks);
    }
  }
}
