/** The bridge's reading of newline-delimited JSON-RPC from a provider: bounded framing in front of a dispatcher. */
module McpFraming {
  import opened Options
  import opened Text
  import opened Utf8

  // Declared tool calls are forwarded, and every request is answered once (sections 4 and 5 of the
  // JSON-RPC 2.0 Specification).

  const MAX_FRAME: nat := 1048576
  const MAX_IN_FLIGHT: nat := 64

  datatype Id = Number(n: real) | Name(s: string)

  datatype Arguments = Absent | AnObject | NotAnObject

  datatype Params = Params(name: Option<string>, arguments: Arguments)

  /** A line after JSON parsing; a call's id and params are `None` when missing or of another type. */
  datatype Frame =
    | Malformed
    | NotARecord
    | Initialize(id: Option<Id>)
    | Initialized
    | ListTools(id: Option<Id>)
    | Call(version: bool, id: Option<Id>, params: Option<Params>)
    | OtherMethod(id: Option<Id>)

  datatype Outcome = Answered(text: string) | Failed(message: string)

  datatype Body = Served | Error(code: int) | Settled(outcome: Outcome)

  const PARSE_ERROR := -32700
  const INVALID_REQUEST := -32600
  const INVALID_PARAMS := -32602
  const METHOD_MISSING := -32601
  const NOT_CONFIGURED := -32000

  /** A line written back, for the frame with this number. */
  datatype Reply = Reply(frame: nat, id: Option<Id>, body: Body)

  /** A call sent on to the Router. */
  datatype Forward = Forward(frame: nat, name: string)

  datatype Config = Config(
    declared: set<string>,
    connected: bool,
    decode: string -> Frame,
    blank: string -> bool)

  datatype Parser = Parser(
    buffer: string,
    bufferBytes: nat,
    terminated: bool,
    inFlight: set<Id>,
    // the promises of forwarded calls that have not settled, and everything written, sent and read
    pending: map<nat, Id>,
    replies: seq<Reply>,
    overflowed: bool,
    forwarded: seq<Forward>,
    handled: seq<Frame>)

  function Begin(): Parser {
    Parser("", 0, false, {}, map[], [], false, [], [])
  }

  function FailClosed(p: Parser): Parser {
    p.(terminated := true, buffer := "", bufferBytes := 0, inFlight := {})
  }

  // ---- one frame ----

  function Answer(p: Parser, id: Option<Id>, body: Body): Parser {
    p.(replies := p.replies + [Reply(|p.handled|, id, body)])
  }

  /** The checks a call passes before it is forwarded, in order; the first that fails gives the code. */
  function Refusal(cfg: Config, p: Parser, f: Frame): Option<int>
    requires f.Call?
  {
    if !f.version || f.id == None then Some(INVALID_REQUEST)
    else if f.params == None || f.params.value.name == None then Some(INVALID_PARAMS)
    else if f.params.value.name.value !in cfg.declared then Some(INVALID_PARAMS)
    else if f.params.value.arguments.NotAnObject? then Some(INVALID_PARAMS)
    else if f.id.value in p.inFlight then Some(INVALID_REQUEST)
    else if !cfg.connected then Some(NOT_CONFIGURED)
    else if |p.inFlight| >= MAX_IN_FLIGHT then Some(INVALID_REQUEST)
    else None
  }

  function Dispatch(cfg: Config, p: Parser, f: Frame): Parser {
    match f
    case Malformed => FailClosed(Answer(p, None, Error(PARSE_ERROR)))
    case NotARecord => FailClosed(Answer(p, None, Error(INVALID_REQUEST)))
    case Initialize(id) => Answer(p, id, Served)
    case Initialized => p
    case ListTools(id) => Answer(p, id, Served)
    case OtherMethod(id) => Answer(p, id, Error(METHOD_MISSING))
    case Call(_, id, params) =>
      var refusal := Refusal(cfg, p, f);
      if refusal.Some? then Answer(p, id, Error(refusal.value))
      else p.(inFlight := p.inFlight + {id.value},
              pending := p.pending[|p.handled| := id.value],
              forwarded := p.forwarded + [Forward(|p.handled|, params.value.name.value)])
  }

  function HandleLine(cfg: Config, p: Parser, line: string): Parser {
    if p.terminated || cfg.blank(line) then p
    else
      var f := cfg.decode(line);
      Dispatch(cfg, p, f).(handled := p.handled + [f])
  }

  function HandleLines(cfg: Config, p: Parser, lines: seq<string>): Parser
    decreases |lines|
  {
    if lines == [] then p else HandleLines(cfg, HandleLine(cfg, p, lines[0]), lines[1..])
  }

  // ---- one chunk ----

  predicate Trips(p: Parser, chunk: string) {
    !p.terminated && p.bufferBytes + ByteLen(chunk) > MAX_FRAME
  }

  function Overflow(p: Parser): Parser {
    FailClosed(p.(overflowed := true))
  }

  function Push(cfg: Config, p: Parser, chunk: string): Parser {
    if p.terminated then p
    else if Trips(p, chunk) then Overflow(p)
    else
      var parts := Split(p.buffer + chunk, '\n');
      HandleLines(cfg, p.(buffer := Open(parts), bufferBytes := ByteLen(Open(parts))), Closed(parts))
  }

  /** The control channel answers a forwarded call, or fails it. */
  function Settle(p: Parser, frame: nat, outcome: Outcome): Parser {
    if frame !in p.pending then p
    else p.(inFlight := p.inFlight - {p.pending[frame]}, pending := p.pending - {frame},
            replies := p.replies + [Reply(frame, Some(p.pending[frame]), Settled(outcome))])
  }

  // ---- what the framing keeps ----

  /** The retained part of a frame holds no newline, is within the bound, and its recorded size is exact. */
  ghost predicate Framed(p: Parser) {
    '\n' !in p.buffer && p.bufferBytes == ByteLen(p.buffer) && p.bufferBytes <= MAX_FRAME
  }

  lemma {:induction false} PiecesFit(s: string)
    ensures forall k :: 0 <= k < |Split(s, '\n')| ==> ByteLen(Split(s, '\n')[k]) <= ByteLen(s)
    decreases |s|
  {
    var i := IndexOf(s, '\n');
    if i < |s| {
      PiecesFit(s[i + 1..]);
      ByteLenSlice(s, 0, i);
      ByteLenSlice(s, i + 1, |s|);
      var rest := Split(s[i + 1..], '\n');
      assert s[i + 1..|s|] == s[i + 1..] && s[0..i] == s[..i];
      forall k | 0 <= k < |Split(s, '\n')| ensures ByteLen(Split(s, '\n')[k]) <= ByteLen(s) {
        if k > 0 {
          assert Split(s, '\n')[k] == rest[k - 1];
        }
      }
    }
  }

  /** Behind the check on the whole chunk, the check on each line can never trip. */
  lemma NoLineOverflows(p: Parser, chunk: string)
    requires Framed(p) && !Trips(p, chunk) && !p.terminated
    ensures forall k :: 0 <= k < |Closed(Split(p.buffer + chunk, '\n'))| ==>
        ByteLen(Closed(Split(p.buffer + chunk, '\n'))[k]) <= MAX_FRAME
    ensures ByteLen(Open(Split(p.buffer + chunk, '\n'))) <= MAX_FRAME && '\n' !in Open(Split(p.buffer + chunk, '\n'))
  {
    hide Split, ByteLen;
    PiecesFit(p.buffer + chunk);
    JoinSplit(p.buffer + chunk, '\n');
    ByteLenAppend(p.buffer, chunk);
  }

  lemma {:induction false} LinesFrame(cfg: Config, p: Parser, lines: seq<string>)
    requires Framed(p)
    ensures Framed(HandleLines(cfg, p, lines))
    ensures !HandleLines(cfg, p, lines).terminated ==>
        HandleLines(cfg, p, lines).buffer == p.buffer && HandleLines(cfg, p, lines).bufferBytes == p.bufferBytes
    ensures HandleLines(cfg, p, lines).terminated && !p.terminated ==>
              HandleLines(cfg, p, lines).buffer == "" && HandleLines(cfg, p, lines).bufferBytes == 0
    decreases |lines|
  {
    if lines != [] {
      LinesFrame(cfg, HandleLine(cfg, p, lines[0]), lines[1..]);
      if HandleLine(cfg, p, lines[0]).terminated {
        StoppedStays(cfg, HandleLine(cfg, p, lines[0]), lines[1..]);
      }
    }
  }

  lemma {:induction false} StoppedStays(cfg: Config, p: Parser, lines: seq<string>)
    requires p.terminated
    ensures HandleLines(cfg, p, lines) == p
    decreases |lines|
  {
    if lines != [] {
      StoppedStays(cfg, p, lines[1..]);
    }
  }

  lemma PushFrames(cfg: Config, p: Parser, chunk: string)
    requires Framed(p)
    ensures Framed(Push(cfg, p, chunk))
  {
    hide Split, ByteLen, HandleLines;
    if !p.terminated && !Trips(p, chunk) {
      NoLineOverflows(p, chunk);
      var parts := Split(p.buffer + chunk, '\n');
      LinesFrame(cfg, p.(buffer := Open(parts), bufferBytes := ByteLen(Open(parts))), Closed(parts));
    } else {
      NothingIsEmpty();
    }
  }

  lemma NothingIsEmpty()
    ensures ByteLen("") == 0
  {
  }

  // ---- chunking does not matter ----

  function PushAll(cfg: Config, p: Parser, chunks: seq<string>): Parser {
    if chunks == [] then p else Push(cfg, PushAll(cfg, p, chunks[..|chunks| - 1]), chunks[|chunks| - 1])
  }

  ghost predicate NeverTrips(cfg: Config, p: Parser, chunks: seq<string>) {
    forall i :: 0 <= i < |chunks| ==> !Trips(PushAll(cfg, p, chunks[..i]), chunks[i])
  }

  function Concatenated(chunks: seq<string>): string {
    if chunks == [] then "" else Concatenated(chunks[..|chunks| - 1]) + chunks[|chunks| - 1]
  }

  /**
   * The outcome of reading a text in one go: its complete lines handled, its open line retained unless the parser
   * stopped.
   */
  function ReadWhole(cfg: Config, text: string): Parser {
    var parts := Split(text, '\n');
    var p := HandleLines(cfg, Begin(), Closed(parts));
    if p.terminated then p else p.(buffer := Open(parts), bufferBytes := ByteLen(Open(parts)))
  }

  /** Apart from the retained line, which is gone once the parser stops. */
  function WithBuffer(p: Parser, buffer: string): Parser {
    if p.terminated then p else p.(buffer := buffer, bufferBytes := ByteLen(buffer))
  }

  lemma SameRefusal(cfg: Config, p: Parser, f: Frame, buffer: string, bytes: nat)
    requires f.Call?
    ensures Refusal(cfg, p.(buffer := buffer, bufferBytes := bytes), f) == Refusal(cfg, p, f)
  {
  }

  lemma DispatchBuffer(cfg: Config, p: Parser, f: Frame, buffer: string)
    requires !p.terminated
    ensures Dispatch(cfg, p.(buffer := buffer, bufferBytes := ByteLen(buffer)), f)
        == WithBuffer(Dispatch(cfg, p, f), buffer)
  {
    hide ByteLen, Refusal;
    if f.Call? {
      SameRefusal(cfg, p, f, buffer, ByteLen(buffer));
    }
  }

  lemma HandleLineBuffer(cfg: Config, p: Parser, line: string, buffer: string)
    ensures HandleLine(cfg, WithBuffer(p, buffer), line) == WithBuffer(HandleLine(cfg, p, line), buffer)
  {
    hide ByteLen, Dispatch;
    if !p.terminated && !cfg.blank(line) {
      DispatchBuffer(cfg, p, cfg.decode(line), buffer);
    }
  }

  /** Handling lines neither reads nor changes the retained line, except that stopping clears it. */
  lemma {:induction false} HandleLinesBuffer(cfg: Config, p: Parser, lines: seq<string>, buffer: string)
    ensures HandleLines(cfg, WithBuffer(p, buffer), lines) == WithBuffer(HandleLines(cfg, p, lines), buffer)
    decreases |lines|
  {
    hide HandleLine, WithBuffer;
    if lines != [] {
      HandleLineBuffer(cfg, p, lines[0], buffer);
      HandleLinesBuffer(cfg, HandleLine(cfg, p, lines[0]), lines[1..], buffer);
    }
  }

  lemma {:induction false} HandleLinesAppend(cfg: Config, p: Parser, a: seq<string>, b: seq<string>)
    ensures HandleLines(cfg, p, a + b) == HandleLines(cfg, HandleLines(cfg, p, a), b)
    decreases |a|
  {
    hide HandleLine;
    if a == [] {
      assert a + b == b;
    } else {
      assert (a + b)[0] == a[0] && (a + b)[1..] == a[1..] + b;
      HandleLinesAppend(cfg, HandleLine(cfg, p, a[0]), a[1..], b);
    }
  }

  /** Chunk by chunk or in one go: as long as no chunk trips the bound, the parser ends in the same state. */
  lemma {:induction false} ChunkingDoesNotMatter(cfg: Config, chunks: seq<string>)
    requires NeverTrips(cfg, Begin(), chunks)
    ensures PushAll(cfg, Begin(), chunks) == ReadWhole(cfg, Concatenated(chunks))
    decreases |chunks|
  {
    hide Push, ReadWhole, Trips;
    if chunks == [] {
      EmptyReads(cfg);
    } else {
      var front, chunk := chunks[..|chunks| - 1], chunks[|chunks| - 1];
      assert forall i :: 0 <= i < |front| ==> chunks[..i] == front[..i];
      assert !Trips(PushAll(cfg, Begin(), chunks[..|front|]), chunks[|front|]);
      ChunkingDoesNotMatter(cfg, front);
      OneMoreChunk(cfg, Concatenated(front), chunk);
    }
  }

  lemma EmptyReads(cfg: Config)
    ensures ReadWhole(cfg, "") == Begin()
  {
  }

  lemma OneMoreChunk(cfg: Config, text: string, chunk: string)
    requires !Trips(ReadWhole(cfg, text), chunk)
    ensures Push(cfg, ReadWhole(cfg, text), chunk) == ReadWhole(cfg, text + chunk)
  {
    hide Split, HandleLines, ByteLen, Trips;
    var before := Split(text, '\n');
    var p := HandleLines(cfg, Begin(), Closed(before));
    SplitAppend(text, chunk, '\n');
    var after := Split(Open(before) + chunk, '\n');
    var whole := Split(text + chunk, '\n');
    assert Closed(whole) == Closed(before) + Closed(after) && Open(whole) == Open(after);
    HandleLinesAppend(cfg, Begin(), Closed(before), Closed(after));
    if p.terminated {
      StoppedStays(cfg, p, Closed(after));
    } else {
      HandleLinesBuffer(cfg, p, Closed(after), Open(after));
      assert p.(buffer := Open(before), bufferBytes := ByteLen(Open(before))).(buffer := Open(after),
          bufferBytes := ByteLen(Open(after)))
          == WithBuffer(p, Open(after));
      KeepsBuffer(cfg, p, Closed(after));
    }
  }

  lemma KeepsBuffer(cfg: Config, p: Parser, lines: seq<string>)
    ensures !HandleLines(cfg, p, lines).terminated ==> !p.terminated
  {
    if p.terminated {
      StoppedStays(cfg, p, lines);
    }
  }

  /** Two ways of cutting the same input that never trip the bound handle the same frames and end alike. */
  lemma SameInputSameFrames(cfg: Config, a: seq<string>, b: seq<string>)
    requires Concatenated(a) == Concatenated(b) && NeverTrips(cfg, Begin(), a) && NeverTrips(cfg, Begin(), b)
    ensures PushAll(cfg, Begin(), a) == PushAll(cfg, Begin(), b)
  {
    hide NeverTrips, PushAll, ReadWhole, Concatenated;
    ChunkingDoesNotMatter(cfg, a);
    ChunkingDoesNotMatter(cfg, b);
  }

  /** Everything read, written and sent so far is the beginning of what the other has. */
  ghost predicate DidLess(p: Parser, q: Parser) {
    p.handled <= q.handled && p.replies <= q.replies && p.forwarded <= q.forwarded
  }

  lemma {:induction false} LinesDoMore(cfg: Config, p: Parser, lines: seq<string>)
    ensures DidLess(p, HandleLines(cfg, p, lines))
    decreases |lines|
  {
    hide Refusal;
    if lines != [] {
      LinesDoMore(cfg, HandleLine(cfg, p, lines[0]), lines[1..]);
    }
  }

  lemma WholeDoesMore(cfg: Config, text: string, more: string)
    ensures DidLess(ReadWhole(cfg, text), ReadWhole(cfg, text + more))
  {
    hide Split, HandleLines, ByteLen;
    SplitAppend(text, more, '\n');
    var before := Split(text, '\n');
    var after := Split(Open(before) + more, '\n');
    assert Closed(Split(text + more, '\n')) == Closed(before) + Closed(after);
    HandleLinesAppend(cfg, Begin(), Closed(before), Closed(after));
    LinesDoMore(cfg, HandleLines(cfg, Begin(), Closed(before)), Closed(after));
  }

  lemma {:induction false} NoFurtherThan(cfg: Config, chunks: seq<string>, n: nat)
    requires n <= |chunks|
    ensures Concatenated(chunks[..n]) <= Concatenated(chunks)
    decreases |chunks|
  {
    if n < |chunks| {
      NoFurtherThan(cfg, chunks[..|chunks| - 1], n);
      assert chunks[..|chunks| - 1][..n] == chunks[..n];
    } else {
      assert chunks[..n] == chunks;
    }
  }

  ghost predicate DidTheSame(p: Parser, q: Parser) {
    p.handled == q.handled && p.replies == q.replies && p.forwarded == q.forwarded
  }

  lemma NeverTripsMore(cfg: Config, p: Parser, chunks: seq<string>)
    requires chunks != []
    ensures var front, chunk := chunks[..|chunks| - 1], chunks[|chunks| - 1];
            NeverTrips(cfg, p, chunks) <==> NeverTrips(cfg, p, front) && !Trips(PushAll(cfg, p, front), chunk)
  {
    hide PushAll, Trips;
    var front := chunks[..|chunks| - 1];
    assert forall i :: 0 <= i < |front| ==> chunks[..i] == front[..i] && chunks[i] == front[i];
    if NeverTrips(cfg, p, chunks) {
      assert !Trips(PushAll(cfg, p, chunks[..|chunks| - 1]), chunks[|chunks| - 1]);
    }
  }

  /** How far reading got: the chunks before the one that tripped, or all of them. */
  lemma {:induction false} ReadUntilItTrips(cfg: Config, chunks: seq<string>) returns (n: nat)
    ensures n <= |chunks| && (NeverTrips(cfg, Begin(), chunks) ==> n == |chunks|)
    ensures DidTheSame(PushAll(cfg, Begin(), chunks), ReadWhole(cfg, Concatenated(chunks[..n])))
    ensures !NeverTrips(cfg, Begin(), chunks) ==> PushAll(cfg, Begin(), chunks).terminated
    decreases |chunks|
  {
    hide NeverTrips, ReadWhole, Trips, Push, Concatenated;
    NoChunksTrip(cfg);
    if NeverTrips(cfg, Begin(), chunks) {
      n := |chunks|;
      assert chunks[..n] == chunks;
      ChunkingDoesNotMatter(cfg, chunks);
    } else {
      var front, chunk := chunks[..|chunks| - 1], chunks[|chunks| - 1];
      NeverTripsMore(cfg, Begin(), chunks);
      n := ReadUntilItTrips(cfg, front);
      assert front[..n] == chunks[..n];
      StoppedOrTripping(cfg, PushAll(cfg, Begin(), front), chunk);
    }
  }

  lemma NoChunksTrip(cfg: Config)
    ensures NeverTrips(cfg, Begin(), [])
  {
  }

  lemma StoppedOrTripping(cfg: Config, p: Parser, chunk: string)
    requires p.terminated || Trips(p, chunk)
    ensures DidTheSame(Push(cfg, p, chunk), p) && Push(cfg, p, chunk).terminated
  {
    hide Split, ByteLen, HandleLines;
  }

  /**
   * However the same input is cut, one cutting handles, answers and forwards the beginning of what the
   * other does; a cutting of which a chunk trips, the beginning of what one that never trips does.
   */
  lemma TrippingOnlyStopsEarlier(cfg: Config, a: seq<string>, b: seq<string>)
    requires Concatenated(a) == Concatenated(b)
    ensures var p, q := PushAll(cfg, Begin(), a), PushAll(cfg, Begin(), b);
            && (DidLess(p, q) || DidLess(q, p))
            && (NeverTrips(cfg, Begin(), b) ==> DidLess(p, q))
  {
    hide NeverTrips, PushAll, ReadWhole, Concatenated;
    var m := ReadUntilItTrips(cfg, a);
    var n := ReadUntilItTrips(cfg, b);
    NoFurtherThan(cfg, a, m);
    NoFurtherThan(cfg, b, n);
    assert b[..|b|] == b;
    var x, y := Concatenated(a[..m]), Concatenated(b[..n]);
    if |x| <= |y| {
      assert y == x + y[|x|..];
      WholeDoesMore(cfg, x, y[|x|..]);
    } else {
      assert x == y + x[|y|..];
      WholeDoesMore(cfg, y, x[|y|..]);
    }
  }

  // ---- calls and answers ----

  /** The in-flight ids are those of the calls that have not settled, one id each; after a stop none are kept. */
  ghost predicate InFlightOk(p: Parser) {
    && (!p.terminated ==>
          && (forall id :: id in p.inFlight <==> Awaited(p.pending, id)) && |p.inFlight| == |p.pending| <= MAX_IN_FLIGHT
          && (forall a, b | a in p.pending && b in p.pending && p.pending[a] == p.pending[b] :: a == b))
    && (p.terminated ==> p.inFlight == {})
  }

  ghost predicate Awaited(pending: map<nat, Id>, id: Id) {
    exists n :: n in pending && pending[n] == id
  }

  ghost predicate Replied(p: Parser, n: nat) {
    exists i :: 0 <= i < |p.replies| && p.replies[i].frame == n
  }

  function IdOf(f: Frame): Option<Id> {
    match f
    case Initialize(id) => id
    case ListTools(id) => id
    case Call(_, id, _) => id
    case OtherMethod(id) => id
    case _ => None
  }

  /** Every frame has one reply with its own id, or none yet: a call that is pending, or the one notification. */
  ghost predicate RepliesOk(p: Parser) {
    && (forall i :: 0 <= i < |p.replies| ==>
        p.replies[i].frame < |p.handled| && p.replies[i].id == IdOf(p.handled[p.replies[i].frame]))
    && (forall i, j :: 0 <= i < j < |p.replies| ==> p.replies[i].frame != p.replies[j].frame)
    && (forall n: nat :: n < |p.handled| ==> (Replied(p, n) <==> !p.handled[n].Initialized? && n !in p.pending))
    && (forall n: nat :: n in p.pending ==>
        n < |p.handled| && p.handled[n].Call? && p.handled[n].id == Some(p.pending[n]))
  }

  /** What went to the Router: complete calls of declared tools, each once. */
  ghost predicate ForwardsOk(cfg: Config, p: Parser) {
    && (forall i :: 0 <= i < |p.forwarded| ==> ForwardOk(cfg, p.handled, p.forwarded[i]))
    && (forall i, j :: 0 <= i < j < |p.forwarded| ==> p.forwarded[i].frame < p.forwarded[j].frame)
  }

  ghost predicate ForwardOk(cfg: Config, handled: seq<Frame>, w: Forward) {
    && w.frame < |handled| && handled[w.frame].Call? && handled[w.frame].version && handled[w.frame].id.Some?
    && handled[w.frame].params.Some? && handled[w.frame].params.value.name == Some(w.name) && w.name in cfg.declared
    && !handled[w.frame].params.value.arguments.NotAnObject?
  }

  ghost predicate Ok(cfg: Config, p: Parser) {
    Framed(p) && InFlightOk(p) && RepliesOk(p) && ForwardsOk(cfg, p)
  }

  /** A frame that is answered at once. */
  lemma AnsweredOk(cfg: Config, p: Parser, f: Frame, body: Body)
    requires InFlightOk(p) && RepliesOk(p) && ForwardsOk(cfg, p) && !f.Initialized?
    ensures var q := Answer(p, IdOf(f), body).(handled := p.handled + [f]);
            InFlightOk(q) && RepliesOk(q) && ForwardsOk(cfg, q)
  {
    var q := Answer(p, IdOf(f), body).(handled := p.handled + [f]);
    AnsweredReplies(p, f, body);
    MoreHandled(cfg, p, f);
  }

  lemma MoreHandled(cfg: Config, p: Parser, f: Frame)
    requires ForwardsOk(cfg, p)
    ensures ForwardsOk(cfg, p.(handled := p.handled + [f]))
  {
    var handled := p.handled + [f];
    forall i | 0 <= i < |p.forwarded| ensures ForwardOk(cfg, handled, p.forwarded[i]) {
      assert ForwardOk(cfg, p.handled, p.forwarded[i]);
      assert handled[p.forwarded[i].frame] == p.handled[p.forwarded[i].frame];
    }
  }

  lemma RepliedMore(p: Parser, q: Parser, r: Reply)
    requires q.replies == p.replies + [r]
    ensures forall n :: Replied(q, n) <==> Replied(p, n) || n == r.frame
  {
    assert q.replies[|p.replies|] == r;
    forall n | Replied(p, n) ensures Replied(q, n) {
      var i :| 0 <= i < |p.replies| && p.replies[i].frame == n;
      assert q.replies[i].frame == n;
    }
  }

  lemma AnsweredReplies(p: Parser, f: Frame, body: Body)
    requires RepliesOk(p) && !f.Initialized?
    ensures RepliesOk(Answer(p, IdOf(f), body).(handled := p.handled + [f]))
  {
    var q := Answer(p, IdOf(f), body).(handled := p.handled + [f]);
    RepliedMore(p, q, Reply(|p.handled|, IdOf(f), body));
    assert !Replied(p, |p.handled|);
    hide Replied;
  }

  lemma NotifiedOk(cfg: Config, p: Parser)
    requires InFlightOk(p) && RepliesOk(p) && ForwardsOk(cfg, p)
    ensures var q := p.(handled := p.handled + [Initialized]);
            InFlightOk(q) && RepliesOk(q) && ForwardsOk(cfg, q)
  {
    MoreHandled(cfg, p, Initialized);
    hide ForwardsOk;
    var q := p.(handled := p.handled + [Initialized]);
    assert forall n :: Replied(q, n) <==> Replied(p, n);
    assert !Replied(p, |p.handled|);
    hide Replied;
  }

  lemma StoppedOk(cfg: Config, p: Parser)
    requires RepliesOk(p) && ForwardsOk(cfg, p)
    ensures Ok(cfg, FailClosed(p))
  {
    var q := FailClosed(p);
    NothingIsEmpty();
    assert forall n :: Replied(q, n) <==> Replied(p, n);
    hide Replied, ForwardOk;
  }

  lemma AwaitedMore(pending: map<nat, Id>, n: nat, id: Id)
    requires n !in pending
    ensures forall x :: Awaited(pending[n := id], x) <==> Awaited(pending, x) || x == id
    ensures forall a :: a in pending ==> Awaited(pending, pending[a])
    ensures |pending[n := id]| == |pending| + 1
  {
    var more := pending[n := id];
    assert more[n] == id;
    forall x | Awaited(pending, x) ensures Awaited(more, x) {
      var k :| k in pending && pending[k] == x;
      assert more[k] == x;
    }
  }

  lemma ForwardedInFlight(p: Parser, n: nat, id: Id)
    requires InFlightOk(p) && !p.terminated && n !in p.pending && id !in p.inFlight && |p.inFlight| < MAX_IN_FLIGHT
    ensures InFlightOk(p.(inFlight := p.inFlight + {id}, pending := p.pending[n := id]))
  {
    hide Awaited;
    AwaitedMore(p.pending, n, id);
  }

  /** A call that passes every check joins those in flight and goes to the Router. */
  lemma ForwardedState(cfg: Config, p: Parser, f: Frame)
    requires f.Call? && Refusal(cfg, p, f) == None
    ensures f.id.Some? && f.params.Some? && f.params.value.name.Some?
    ensures Dispatch(cfg, p, f) == p.(inFlight := p.inFlight + {f.id.value},
        pending := p.pending[|p.handled| := f.id.value],
                                      forwarded := p.forwarded + [Forward(|p.handled|, f.params.value.name.value)])
  {
    RefusalNone(cfg, p, f);
    hide Refusal;
  }

  lemma NextIsNotPending(p: Parser)
    requires RepliesOk(p)
    ensures |p.handled| !in p.pending
  {
  }

  lemma ForwardedOk(cfg: Config, p: Parser, f: Frame)
    requires InFlightOk(p) && RepliesOk(p) && ForwardsOk(cfg, p) && !p.terminated && f.Call?
        && Refusal(cfg, p, f) == None
    ensures var q := Dispatch(cfg, p, f).(handled := p.handled + [f]);
            InFlightOk(q) && RepliesOk(q) && ForwardsOk(cfg, q)
  {
    hide Dispatch, Refusal, RepliesOk, InFlightOk, ForwardsOk;
    var n := |p.handled|;
    NextIsNotPending(p);
    RefusalNone(cfg, p, f);
    ForwardedState(cfg, p, f);
    var q := Dispatch(cfg, p, f).(handled := p.handled + [f]);
    ForwardedInFlight(p, n, f.id.value);
    SameInFlight(p.(inFlight := q.inFlight, pending := q.pending), q);
    ForwardedMore(cfg, p, f);
    ForwardedReplies(p, q, f);
  }

  lemma RefusalNone(cfg: Config, p: Parser, f: Frame)
    requires f.Call? && Refusal(cfg, p, f) == None
    ensures f.version && f.id.Some? && f.params.Some? && f.params.value.name.Some?
        && f.params.value.name.value in cfg.declared
    ensures !f.params.value.arguments.NotAnObject? && f.id.value !in p.inFlight && |p.inFlight| < MAX_IN_FLIGHT
        && cfg.connected
  {
  }

  lemma SameInFlight(p: Parser, q: Parser)
    requires InFlightOk(p) && q.inFlight == p.inFlight && q.pending == p.pending && q.terminated == p.terminated
    ensures InFlightOk(q)
  {
    hide Awaited;
  }

  lemma ForwardedReplies(p: Parser, q: Parser, f: Frame)
    requires RepliesOk(p) && f.Call? && f.id.Some?
    requires q.replies == p.replies && q.pending == p.pending[|p.handled| := f.id.value] && q.handled == p.handled + [f]
    ensures RepliesOk(q)
  {
    assert forall k :: Replied(q, k) <==> Replied(p, k);
    assert !Replied(p, |p.handled|);
    hide Replied;
  }

  lemma ForwardedMore(cfg: Config, p: Parser, f: Frame)
    requires ForwardsOk(cfg, p) && f.Call? && f.version && f.id.Some? && f.params.Some? && f.params.value.name.Some?
    requires f.params.value.name.value in cfg.declared && !f.params.value.arguments.NotAnObject?
    ensures forall q: Parser ::
              q.handled == p.handled + [f]
              && q.forwarded == p.forwarded + [Forward(|p.handled|, f.params.value.name.value)] ==>
                ForwardsOk(cfg, q)
  {
    MoreHandled(cfg, p, f);
    var handled := p.handled + [f];
    assert ForwardOk(cfg, handled, Forward(|p.handled|, f.params.value.name.value));
    forall i | 0 <= i < |p.forwarded| ensures p.forwarded[i].frame < |p.handled| {
      assert ForwardOk(cfg, p.handled, p.forwarded[i]);
    }
    hide ForwardOk;
  }

  lemma HandleLineOk(cfg: Config, p: Parser, line: string)
    requires Ok(cfg, p)
    ensures Ok(cfg, HandleLine(cfg, p, line))
  {
    if !p.terminated && !cfg.blank(line) {
      var f := cfg.decode(line);
      hide InFlightOk, RepliesOk, ForwardsOk, Refusal, ByteLen;
      match f
      case Malformed =>
        AnsweredOk(cfg, p, f, Error(PARSE_ERROR));
        StoppedOk(cfg, Answer(p, None, Error(PARSE_ERROR)).(handled := p.handled + [f]));
      case NotARecord =>
        AnsweredOk(cfg, p, f, Error(INVALID_REQUEST));
        StoppedOk(cfg, Answer(p, None, Error(INVALID_REQUEST)).(handled := p.handled + [f]));
      case Initialize(_) => AnsweredOk(cfg, p, f, Served);
      case Initialized => NotifiedOk(cfg, p);
      case ListTools(_) => AnsweredOk(cfg, p, f, Served);
      case OtherMethod(_) => AnsweredOk(cfg, p, f, Error(METHOD_MISSING));
      case Call(_, _, _) =>
        if Refusal(cfg, p, f).Some? {
          AnsweredOk(cfg, p, f, Error(Refusal(cfg, p, f).value));
        } else {
          ForwardedOk(cfg, p, f);
        }
    }
  }

  lemma {:induction false} HandleLinesOk(cfg: Config, p: Parser, lines: seq<string>)
    requires Ok(cfg, p)
    ensures Ok(cfg, HandleLines(cfg, p, lines))
    decreases |lines|
  {
    hide Ok, HandleLine;
    if lines != [] {
      HandleLineOk(cfg, p, lines[0]);
      HandleLinesOk(cfg, HandleLine(cfg, p, lines[0]), lines[1..]);
    }
  }

  lemma PushOk(cfg: Config, p: Parser, chunk: string)
    requires Ok(cfg, p)
    ensures Ok(cfg, Push(cfg, p, chunk))
  {
    hide Split, ByteLen, HandleLines, InFlightOk, RepliesOk, ForwardsOk;
    if p.terminated {
    } else if Trips(p, chunk) {
      var q := p.(overflowed := true);
      SameCalls(cfg, p, q);
      StoppedOk(cfg, q);
    } else {
      NoLineOverflows(p, chunk);
      var parts := Split(p.buffer + chunk, '\n');
      var q := p.(buffer := Open(parts), bufferBytes := ByteLen(Open(parts)));
      SameCalls(cfg, p, q);
      HandleLinesOk(cfg, q, Closed(parts));
    }
  }

  lemma SameCalls(cfg: Config, p: Parser, q: Parser)
    requires q == p.(buffer := q.buffer, bufferBytes := q.bufferBytes, overflowed := q.overflowed)
    ensures InFlightOk(p) ==> InFlightOk(q)
    ensures RepliesOk(p) ==> RepliesOk(q)
    ensures ForwardsOk(cfg, p) ==> ForwardsOk(cfg, q)
  {
    assert forall n :: Replied(q, n) <==> Replied(p, n);
    hide Replied, ForwardOk;
  }

  lemma SettledReplies(p: Parser, n: nat, outcome: Outcome)
    requires RepliesOk(p) && n in p.pending
    ensures RepliesOk(Settle(p, n, outcome))
  {
    var q := Settle(p, n, outcome);
    RepliedMore(p, q, Reply(n, Some(p.pending[n]), Settled(outcome)));
    forall i | 0 <= i < |p.replies| ensures p.replies[i].frame != n {
      assert p.replies[i].frame == n ==> Replied(p, n);
    }
    hide Replied;
  }

  lemma SettledInFlight(p: Parser, n: nat)
    requires InFlightOk(p) && n in p.pending
    ensures InFlightOk(p.(inFlight := p.inFlight - {p.pending[n]}, pending := p.pending - {n}))
  {
    var pending := p.pending - {n};
    if !p.terminated {
      forall x ensures Awaited(pending, x) <==> Awaited(p.pending, x) && x != p.pending[n] {
        if Awaited(p.pending, x) && x != p.pending[n] {
          var k :| k in p.pending && p.pending[k] == x;
          assert pending[k] == x;
        }
      }
      assert Awaited(p.pending, p.pending[n]);
      hide Awaited;
    }
  }

  lemma SettleOk(cfg: Config, p: Parser, n: nat, outcome: Outcome)
    requires Ok(cfg, p)
    ensures Ok(cfg, Settle(p, n, outcome))
  {
    hide RepliesOk, InFlightOk, ForwardOk, ByteLen;
    if n in p.pending {
      SettledReplies(p, n, outcome);
      SettledInFlight(p, n);
      var q := p.(inFlight := p.inFlight - {p.pending[n]}, pending := p.pending - {n});
      SameInFlight(q, Settle(p, n, outcome));
    }
  }

  // ---- runs ----

  datatype Op = DoPush(chunk: string) | DoSettle(frame: nat, outcome: Outcome)

  function Apply(cfg: Config, p: Parser, op: Op): Parser {
    match op
    case DoPush(chunk) => Push(cfg, p, chunk)
    case DoSettle(frame, outcome) => Settle(p, frame, outcome)
  }

  function Run(cfg: Config, ops: seq<Op>): Parser {
    if ops == [] then Begin() else Apply(cfg, Run(cfg, ops[..|ops| - 1]), ops[|ops| - 1])
  }

  lemma BeginOk(cfg: Config)
    ensures Ok(cfg, Begin())
  {
    NothingIsEmpty();
  }

  lemma {:induction false} RunOk(cfg: Config, ops: seq<Op>)
    ensures Ok(cfg, Run(cfg, ops))
    decreases |ops|
  {
    hide Ok, Push, Settle;
    if ops == [] {
      BeginOk(cfg);
    } else {
      var front, op := ops[..|ops| - 1], ops[|ops| - 1];
      RunOk(cfg, front);
      if op.DoPush? {
        PushOk(cfg, Run(cfg, front), op.chunk);
      } else {
        SettleOk(cfg, Run(cfg, front), op.frame, op.outcome);
      }
    }
  }

  /** In every run the retained frame is within the bound, and its recorded size is its size. */
  lemma RetainedFrameIsBounded(cfg: Config, ops: seq<Op>)
    ensures var p := Run(cfg, ops);
            '\n' !in p.buffer && p.bufferBytes == ByteLen(p.buffer) && p.bufferBytes <= MAX_FRAME
  {
    hide Run, InFlightOk, RepliesOk, ForwardsOk, ByteLen;
    RunOk(cfg, ops);
  }

  /**
   * In every run, before a stop, the in-flight ids are exactly those of the unsettled calls, one each, at most sixty-
   * four.
   */
  lemma InFlightIsExact(cfg: Config, ops: seq<Op>)
    requires !Run(cfg, ops).terminated
    ensures var p := Run(cfg, ops);
            && (forall id :: id in p.inFlight <==> Awaited(p.pending, id))
            && (forall a, b | a in p.pending && b in p.pending && p.pending[a] == p.pending[b] :: a == b)
            && |p.inFlight| == |p.pending| <= MAX_IN_FLIGHT
            && (forall n: nat :: n in p.pending ==>
                n < |p.handled| && p.handled[n].Call? && p.handled[n].id == Some(p.pending[n]))
  {
    hide Run, ForwardsOk, ByteLen, Replied, Awaited;
    RunOk(cfg, ops);
  }

  /**
   * In every run, before a stop and after, each call has exactly one reply, under its own id, once it is not pending.
   */
  lemma EachCallIsAnsweredOnce(cfg: Config, ops: seq<Op>, n: nat)
    requires n < |Run(cfg, ops).handled| && Run(cfg, ops).handled[n].Call?
    ensures var p := Run(cfg, ops);
            && (n in p.pending ==> forall i :: 0 <= i < |p.replies| ==> p.replies[i].frame != n)
            && (n !in p.pending ==>
                  exists i :: 0 <= i < |p.replies| && p.replies[i].frame == n && p.replies[i].id == p.handled[n].id
                              && forall j :: 0 <= j < |p.replies| && p.replies[j].frame == n ==> j == i)
  {
    hide Run, ForwardsOk, InFlightOk, ByteLen;
    RunOk(cfg, ops);
    var p := Run(cfg, ops);
    if n !in p.pending {
      assert Replied(p, n);
      var i :| 0 <= i < |p.replies| && p.replies[i].frame == n;
      assert p.replies[i].id == IdOf(p.handled[n]);
    } else {
      assert !Replied(p, n);
    }
  }

  /** In every run, what was forwarded are complete calls of declared tools, each once and in order. */
  lemma OnlyDeclaredCallsAreForwarded(cfg: Config, ops: seq<Op>)
    ensures var p := Run(cfg, ops);
            && (forall i :: 0 <= i < |p.forwarded| ==> ForwardOk(cfg, p.handled, p.forwarded[i]))
            && (forall i, j :: 0 <= i < j < |p.forwarded| ==> p.forwarded[i].frame < p.forwarded[j].frame)
  {
    hide Run, RepliesOk, InFlightOk, ByteLen, ForwardOk;
    RunOk(cfg, ops);
  }

  /** After a stop nothing more is read or forwarded; calls that were already sent may still be answered. */
  lemma {:induction false} NothingForwardedAfterTheStop(cfg: Config, ops: seq<Op>, more: seq<Op>)
    requires Run(cfg, ops).terminated
    ensures var p, q := Run(cfg, ops), Run(cfg, ops + more);
            q.terminated && q.forwarded == p.forwarded && q.handled == p.handled && q.pending.Keys <= p.pending.Keys
    decreases |more|
  {
    if more == [] {
      assert ops + more == ops;
    } else {
      var front := more[..|more| - 1];
      assert (ops + more)[..|ops + more| - 1] == ops + front;
      NothingForwardedAfterTheStop(cfg, ops, front);
    }
  }

  /** The frame that stops the parser is not forwarded, and neither is anything behind it. */
  lemma StoppingForwardsNothing(cfg: Config, p: Parser, line: string)
    requires !p.terminated && HandleLine(cfg, p, line).terminated
    ensures HandleLine(cfg, p, line).forwarded == p.forwarded && HandleLine(cfg, p, line).inFlight == {}
  {
  }

  /**
   * Of the lines of a chunk, the one that stops the parser is the last that is read: it is not forwarded,
   * and nothing behind it is read or forwarded.
   */
  lemma {:induction false} StopCutsTheLines(cfg: Config, p: Parser, lines: seq<string>) returns (k: nat)
    requires !p.terminated && HandleLines(cfg, p, lines).terminated
    ensures k < |lines|
    ensures var before, after := HandleLines(cfg, p, lines[..k]), HandleLines(cfg, p, lines);
            && !before.terminated && after == HandleLine(cfg, before, lines[k])
            && after.forwarded == before.forwarded && after.inFlight == {}
            && after.handled == before.handled + [cfg.decode(lines[k])]
    decreases |lines|
  {
    hide HandleLine;
    var next := HandleLine(cfg, p, lines[0]);
    if next.terminated {
      k := 0;
      StoppedStays(cfg, next, lines[1..]);
      StoppingForwardsNothing(cfg, p, lines[0]);
      StoppingIsRead(cfg, p, lines[0]);
    } else {
      var n := StopCutsTheLines(cfg, next, lines[1..]);
      k := n + 1;
      assert lines[..k][1..] == lines[1..][..n] && lines[..k][0] == lines[0];
    }
  }

  lemma StoppingIsRead(cfg: Config, p: Parser, line: string)
    requires !p.terminated && HandleLine(cfg, p, line).terminated
    ensures HandleLine(cfg, p, line).handled == p.handled + [cfg.decode(line)]
  {
    hide Dispatch;
  }
}
