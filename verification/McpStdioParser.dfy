/** The parser as the object it is: a retained line, an in-flight set, and a loop over the lines of each chunk. */
module McpStdioParsers {
  import opened Options
  import opened Text
  import opened Utf8
  import opened McpFraming

  class McpStdioParser {
    const cfg: Config
    var buffer: string
    var bufferBytes: nat
    var terminated: bool
    var inFlight: set<Id>
    var pending: map<nat, Id>
    var replies: seq<Reply>
    var overflowed: bool
    var forwarded: seq<Forward>
    var handled: seq<Frame>

    ghost function Model(): Parser
      reads this
    {
      Parser(buffer, bufferBytes, terminated, inFlight, pending, replies, overflowed, forwarded, handled)
    }

    constructor (cfg: Config)
      ensures this.cfg == cfg && Model() == Begin() && Framed(Model())
    {
      this.cfg := cfg;
      buffer, bufferBytes, terminated, inFlight, pending := "", 0, false, {}, map[];
      replies, overflowed, forwarded, handled := [], false, [], [];
    }

    method Stop()
      modifies this
      ensures Model() == FailClosed(old(Model()))
    {
      terminated := true;
      buffer := "";
      bufferBytes := 0;
      inFlight := {};
    }

    method Write(id: Option<Id>, body: Body)
      modifies this`replies
      ensures Model() == Answer(old(Model()), id, body)
    {
      replies := replies + [Reply(|handled|, id, body)];
    }

    /** All the checks of a call, and then its place in the in-flight set. */
    method HandleToolCall(f: Frame)
      requires f.Call?
      modifies this`inFlight, this`pending, this`forwarded, this`replies
      ensures Model() == Dispatch(cfg, old(Model()), f)
    {
      if !f.version || f.id == None {
        Write(f.id, Error(INVALID_REQUEST));
        return;
      }
      if f.params == None || f.params.value.name == None {
        Write(f.id, Error(INVALID_PARAMS));
        return;
      }
      var name := f.params.value.name.value;
      if name !in cfg.declared || f.params.value.arguments.NotAnObject? {
        Write(f.id, Error(INVALID_PARAMS));
        return;
      }
      if f.id.value in inFlight {
        Write(f.id, Error(INVALID_REQUEST));
        return;
      }
      if !cfg.connected {
        Write(f.id, Error(NOT_CONFIGURED));
        return;
      }
      if |inFlight| >= MAX_IN_FLIGHT {
        Write(f.id, Error(INVALID_REQUEST));
        return;
      }
      inFlight := inFlight + {f.id.value};
      pending := pending[|handled| := f.id.value];
      forwarded := forwarded + [Forward(|handled|, name)];
    }

    method HandleFrame(f: Frame)
      modifies this
      ensures Model() == Dispatch(cfg, old(Model()), f).(handled := old(handled) + [f])
    {
      match f {
        case Malformed =>
          Write(None, Error(PARSE_ERROR));
          Stop();
        case NotARecord =>
          Write(None, Error(INVALID_REQUEST));
          Stop();
        case Initialize(id) => Write(id, Served);
        case Initialized =>
        case ListTools(id) => Write(id, Served);
        case OtherMethod(id) => Write(id, Error(METHOD_MISSING));
        case Call(_, _, _) => HandleToolCall(f);
      }
      handled := handled + [f];
    }

    /** The bound is checked before the chunk is appended; the check on each line is there too, and never trips. */
    method Push(chunk: string)
      requires Framed(Model())
      modifies this
      ensures Framed(Model()) && Model() == McpFraming.Push(cfg, old(Model()), chunk)
    {
      hide Split, ByteLen, Dispatch;
      PushFrames(cfg, Model(), chunk);
      if terminated {
        return;
      }
      if bufferBytes + ByteLen(chunk) > MAX_FRAME {
        overflowed := true;
        Stop();
        return;
      }
      NoLineOverflows(Model(), chunk);
      var parts := Split(buffer + chunk, '\n');
      var lines := Closed(parts);
      buffer := Open(parts);
      bufferBytes := ByteLen(buffer);
      ghost var start := Model();
      assert lines[0..] == lines;
      for i := 0 to |lines|
        invariant HandleLines(cfg, Model(), lines[i..]) == HandleLines(cfg, start, lines)
      {
        assert lines[i..][0] == lines[i] && lines[i..][1..] == lines[i + 1..];
        if terminated {
          StoppedStays(cfg, Model(), lines[i..]);
          return;
        }
        if !cfg.blank(lines[i]) {
          if ByteLen(lines[i]) > MAX_FRAME {
            assert false;
          }
          HandleFrame(cfg.decode(lines[i]));
        }
      }
    }

    /** The control channel's answer to a call that was forwarded, or its failure. */
    method SettleCall(frame: nat, outcome: Outcome)
      requires frame in pending
      modifies this`inFlight, this`pending, this`replies
      ensures Model() == Settle(old(Model()), frame, outcome)
      ensures pending == old(pending) - {frame} && inFlight == old(inFlight) - {old(pending)[frame]}
      ensures replies == old(replies) + [Reply(frame, Some(old(pending)[frame]), Settled(outcome))]
    {
      var id := pending[frame];
      inFlight := inFlight - {id};
      pending := pending - {frame};
      replies := replies + [Reply(frame, Some(id), Settled(outcome))];
    }

    method BufferedBytes() returns (n: nat)
      requires Framed(Model())
      ensures n == ByteLen(buffer) && n <= MAX_FRAME
    {
      n := bufferBytes;
    }
  }
}
