/**
 * What the bridge answers, and what it reads, over every run.
 */
module McpAnswers {
  import opened Options
  import opened Text
  import opened Utf8
  import opened McpFraming

  // What the bridge's answers say, over every run of chunks and settlements: a call that was forwarded is
  // answered with exactly the outcome of the settlement that met it pending, a call that was not is
  // answered with an error, and which calls are forwarded and which code refuses the others is decided by
  // the fields of the frame and of the parser.

  // ---- one frame ----

  /**
   * The first check a call fails gives its code, and a call that passes them all is forwarded and in flight: version
   * and id, name and arguments of a declared tool, an id that is not in flight, a control channel, and room.
   */
  lemma CallIsDecided(cfg: Config, p: Parser, f: Frame)
    requires f.Call?
    ensures var identified := f.version && f.id.Some?;
            var wellFormed := f.params.Some? && f.params.value.name.Some? && f.params.value.name.value in cfg.declared
                              && !f.params.value.arguments.NotAnObject?;
            var repeated := f.id.Some? && f.id.value in p.inFlight;
            var q := Dispatch(cfg, p, f);
            && (!identified ==> q == Refused(p, f, -32600))
            && (identified && !wellFormed ==> q == Refused(p, f, -32602))
            && (identified && wellFormed && repeated ==> q == Refused(p, f, -32600))
            && (identified && wellFormed && !repeated && !cfg.connected ==> q == Refused(p, f, -32000))
            && (identified && wellFormed && !repeated && cfg.connected && |p.inFlight| >= 64 ==>
                  q == Refused(p, f, -32600))
            && (identified && wellFormed && !repeated && cfg.connected && |p.inFlight| < 64 ==>
                  q == p.(inFlight := p.inFlight + {f.id.value}, pending := p.pending[|p.handled| := f.id.value],
                          forwarded := p.forwarded + [Forward(|p.handled|, f.params.value.name.value)]))
  {
  }

  /** A line stops the parser exactly when it is not JSON or not a record, and then nothing is kept of what it held. */
  lemma LineStopsExactly(cfg: Config, p: Parser, line: string)
    requires !p.terminated && !cfg.blank(line)
    ensures var q := HandleLine(cfg, p, line);
            && (q.terminated <==> cfg.decode(line).Malformed? || cfg.decode(line).NotARecord?)
            && (q.terminated ==> q.buffer == "" && q.bufferBytes == 0 && q.inFlight == {} && q.pending == p.pending)
            && q.handled == p.handled + [cfg.decode(line)]
  {
    hide Refusal;
  }

  /** One error is written under the call's id, and nothing else happens. */
  ghost function Refused(p: Parser, f: Frame, code: int): Parser
    requires f.Call?
  {
    p.(replies := p.replies + [Reply(|p.handled|, f.id, Error(code))])
  }

  /** A chunk that would take the retained frame over a mebibyte stops the parser, and nothing of it is read. */
  lemma ChunkOverflowsExactly(cfg: Config, p: Parser, chunk: string)
    requires Framed(p) && !p.terminated && !p.overflowed
    ensures var q := Push(cfg, p, chunk);
            && (q.overflowed <==> ByteLen(p.buffer) + ByteLen(chunk) > 1048576)
            && (q.overflowed ==> q.terminated && q.handled == p.handled && q.forwarded == p.forwarded)
  {
    hide Split, ByteLen, HandleLines, HandleLine;
    if !Trips(p, chunk) {
      var parts := Split(p.buffer + chunk, '\n');
      LinesDoNotOverflow(cfg, p.(buffer := Open(parts), bufferBytes := ByteLen(Open(parts))), Closed(parts));
    }
  }

  lemma {:induction false} LinesDoNotOverflow(cfg: Config, p: Parser, lines: seq<string>)
    ensures HandleLines(cfg, p, lines).overflowed == p.overflowed
    decreases |lines|
  {
    if lines != [] {
      LinesDoNotOverflow(cfg, HandleLine(cfg, p, lines[0]), lines[1..]);
    }
  }

  // ---- what an answer says about its frame ----

  /** The call in this frame went to the Router. */
  ghost predicate Sent(p: Parser, n: nat) {
    exists i :: 0 <= i < |p.forwarded| && p.forwarded[i].frame == n
  }

  /** An answer is the one its frame calls for. */
  ghost predicate Says(p: Parser, r: Reply) {
    && r.frame < |p.handled|
    && match p.handled[r.frame]
       case Malformed => r.body == Error(-32700)
       case NotARecord => r.body == Error(-32600)
       case Initialize(_) => r.body == Served
       case Initialized => false
       case ListTools(_) => r.body == Served
       case OtherMethod(_) => r.body == Error(-32601)
       case Call(_, _, _) => if Sent(p, r.frame) then r.body.Settled? else r.body.Error?
  }

  ghost predicate Told(p: Parser) {
    && (forall i :: 0 <= i < |p.replies| ==> Says(p, p.replies[i]))
    && (forall n :: n in p.pending ==> Sent(p, n) && n < |p.handled| && p.handled[n].Call?)
    && (forall i :: 0 <= i < |p.forwarded| ==> p.forwarded[i].frame < |p.handled|)
  }

  lemma SentMore(p: Parser, q: Parser, n: nat)
    requires q.forwarded == p.forwarded
        || (|q.forwarded| == |p.forwarded| + 1 && q.forwarded[..|p.forwarded|] == p.forwarded
                                            && q.forwarded[|p.forwarded|].frame == |p.handled|)
    ensures n != |p.handled| || q.forwarded == p.forwarded ==> (Sent(q, n) <==> Sent(p, n))
    ensures q.forwarded != p.forwarded ==> Sent(q, |p.handled|)
  {
    if Sent(p, n) {
      var i :| 0 <= i < |p.forwarded| && p.forwarded[i].frame == n;
      assert q.forwarded[i] == p.forwarded[i];
    }
    if q.forwarded != p.forwarded {
      assert q.forwarded[|p.forwarded|].frame == |p.handled|;
    }
    if i :| 0 <= i < |q.forwarded| && q.forwarded[i].frame == n {
      if i < |p.forwarded| {
        assert q.forwarded[i] == p.forwarded[i];
      }
    }
  }

  lemma SaysStays(p: Parser, q: Parser, r: Reply)
    requires Says(p, r) && r.frame < |p.handled| && p.handled <= q.handled && (Sent(q, r.frame) <==> Sent(p, r.frame))
    ensures Says(q, r)
  {
    hide Sent;
    assert q.handled[r.frame] == p.handled[r.frame];
  }

  /** A frame that is read and answered on the spot, or only noted. */
  lemma AnsweredIsTold(p: Parser, q: Parser, f: Frame)
    requires Told(p) && !Sent(p, |p.handled|)
    requires q.handled == p.handled + [f] && q.forwarded == p.forwarded && q.pending == p.pending
    requires q.replies == p.replies
             || (|q.replies| == |p.replies| + 1 && q.replies[..|p.replies|] == p.replies
                 && q.replies[|p.replies|].frame == |p.handled| && Says(q, q.replies[|p.replies|]))
    ensures Told(q)
  {
    assert forall n :: Sent(q, n) <==> Sent(p, n);
    hide Sent;
    forall i | 0 <= i < |q.replies| ensures Says(q, q.replies[i]) {
      if i < |p.replies| {
        assert q.replies[i] == p.replies[i];
        SaysStays(p, q, p.replies[i]);
      }
    }
  }

  lemma NotYetSent(p: Parser)
    requires Told(p)
    ensures !Sent(p, |p.handled|)
  {
    hide Says;
  }

  lemma ForwardedIsTold(p: Parser, q: Parser, f: Frame, id: Id, w: Forward)
    requires Told(p) && w.frame == |p.handled| && f.Call?
    requires q.handled == p.handled + [f] && q.forwarded == p.forwarded + [w]
    requires q.pending == p.pending[|p.handled| := id] && q.replies == p.replies
    ensures Told(q)
  {
    forall n ensures (n != |p.handled| ==> (Sent(q, n) <==> Sent(p, n))) && Sent(q, |p.handled|) {
      SentMore(p, q, n);
    }
    hide Sent;
    forall i | 0 <= i < |q.replies| ensures Says(q, q.replies[i]) {
      assert Says(p, p.replies[i]);
      SaysStays(p, q, p.replies[i]);
    }
  }

  lemma StoppedIsTold(p: Parser)
    requires Told(p)
    ensures Told(FailClosed(p))
  {
    var q := FailClosed(p);
    assert forall n :: Sent(q, n) <==> Sent(p, n);
    hide Sent;
    forall i | 0 <= i < |q.replies| ensures Says(q, q.replies[i]) {
      SaysStays(p, q, p.replies[i]);
    }
  }

  lemma CallIsTold(cfg: Config, p: Parser, f: Frame)
    requires Told(p) && f.Call?
    ensures Told(Dispatch(cfg, p, f).(handled := p.handled + [f]))
  {
    NotYetSent(p);
    var q := Dispatch(cfg, p, f).(handled := p.handled + [f]);
    CallIsDecided(cfg, p, f);
    hide Dispatch, Told;
    if q.forwarded == p.forwarded {
      RefusedSays(p, q, f);
      AnsweredIsTold(p, q, f);
    } else {
      ForwardedIsTold(p, q, f, f.id.value, Forward(|p.handled|, f.params.value.name.value));
    }
  }

  lemma RefusedSays(p: Parser, q: Parser, f: Frame)
    requires f.Call? && !Sent(p, |p.handled|) && q.forwarded == p.forwarded && q.handled == p.handled + [f]
    requires |q.replies| == |p.replies| + 1 && q.replies[|p.replies|].frame == |p.handled|
    requires q.replies[|p.replies|].body.Error?
    ensures Says(q, q.replies[|p.replies|])
  {
  }

  lemma FrameIsTold(cfg: Config, p: Parser, f: Frame)
    requires Told(p)
    ensures Told(Dispatch(cfg, p, f).(handled := p.handled + [f]))
  {
    NotYetSent(p);
    var q := Dispatch(cfg, p, f).(handled := p.handled + [f]);
    hide Told, Refusal, Sent;
    match f
    case Malformed =>
      AnsweredIsTold(p, Answer(p, None, Error(-32700)).(handled := p.handled + [f]), f);
      StoppedIsTold(Answer(p, None, Error(-32700)).(handled := p.handled + [f]));
    case NotARecord =>
      AnsweredIsTold(p, Answer(p, None, Error(-32600)).(handled := p.handled + [f]), f);
      StoppedIsTold(Answer(p, None, Error(-32600)).(handled := p.handled + [f]));
    case Call(_, _, _) => CallIsTold(cfg, p, f);
    case _ => AnsweredIsTold(p, q, f);
  }

  lemma {:induction false} LinesAreTold(cfg: Config, p: Parser, lines: seq<string>)
    requires Told(p)
    ensures Told(HandleLines(cfg, p, lines))
    decreases |lines|
  {
    hide Told, Dispatch;
    if lines != [] {
      FrameIsTold(cfg, p, cfg.decode(lines[0]));
      LinesAreTold(cfg, HandleLine(cfg, p, lines[0]), lines[1..]);
    }
  }

  lemma SameIsTold(p: Parser, q: Parser)
    requires Told(p) && q == p.(buffer := q.buffer, bufferBytes := q.bufferBytes, overflowed := q.overflowed)
    ensures Told(q)
  {
    assert forall n :: Sent(q, n) <==> Sent(p, n);
    hide Sent;
    forall i | 0 <= i < |q.replies| ensures Says(q, q.replies[i]) {
      SaysStays(p, q, p.replies[i]);
    }
  }

  lemma PushIsTold(cfg: Config, p: Parser, chunk: string)
    requires Told(p)
    ensures Told(Push(cfg, p, chunk))
  {
    hide Told, Split, ByteLen, HandleLines;
    if p.terminated {
    } else if Trips(p, chunk) {
      SameIsTold(p, p.(overflowed := true));
      StoppedIsTold(p.(overflowed := true));
    } else {
      var parts := Split(p.buffer + chunk, '\n');
      var q := p.(buffer := Open(parts), bufferBytes := ByteLen(Open(parts)));
      SameIsTold(p, q);
      LinesAreTold(cfg, q, Closed(parts));
    }
  }

  // ---- a settlement ----

  /** Settling a pending call, on the fields: its id is free again, and its outcome is written under its own id. */
  lemma SettlementIsWritten(p: Parser, n: nat, outcome: Outcome)
    ensures var q := Settle(p, n, outcome);
            && q.handled == p.handled && q.forwarded == p.forwarded && q.terminated == p.terminated
            && q.buffer == p.buffer && q.bufferBytes == p.bufferBytes && q.overflowed == p.overflowed
            && q.pending == p.pending - {n}
            && (n in p.pending ==>
                  && q.inFlight == p.inFlight - {p.pending[n]}
                  && q.replies == p.replies + [Reply(n, Some(p.pending[n]), Settled(outcome))])
            && (n !in p.pending ==> q.inFlight == p.inFlight && q.replies == p.replies)
  {
    if n !in p.pending {
      assert p.pending - {n} == p.pending;
    }
  }

  lemma SettlementIsTold(p: Parser, n: nat, outcome: Outcome)
    requires Told(p)
    ensures Told(Settle(p, n, outcome))
  {
    var q := Settle(p, n, outcome);
    SettlementIsWritten(p, n, outcome);
    assert forall k :: Sent(q, k) <==> Sent(p, k);
    hide Sent, Settle;
    forall i | 0 <= i < |q.replies| ensures Says(q, q.replies[i]) {
      if i < |p.replies| {
        assert Says(p, p.replies[i]);
        SaysStays(p, q, p.replies[i]);
      }
    }
  }

  // ---- whole runs ----

  lemma {:induction false} RunIsTold(cfg: Config, ops: seq<Op>)
    ensures Told(Run(cfg, ops))
    decreases |ops|
  {
    hide Told, Push, Settle;
    if ops == [] {
      assert Told(Begin()) by { NothingIsTold(); }
    } else {
      var front, op := ops[..|ops| - 1], ops[|ops| - 1];
      RunIsTold(cfg, front);
      if op.DoPush? {
        PushIsTold(cfg, Run(cfg, front), op.chunk);
      } else {
        SettlementIsTold(Run(cfg, front), op.frame, op.outcome);
      }
    }
  }

  lemma NothingIsTold()
    ensures Told(Begin())
  {
  }

  /** What is written by reading is never the outcome of a call. */
  ghost predicate OnlyReads(p: Parser, q: Parser) {
    && |p.replies| <= |q.replies| && q.replies[..|p.replies|] == p.replies
    && forall i :: |p.replies| <= i < |q.replies| ==> !q.replies[i].body.Settled?
  }

  lemma {:induction false} LinesOnlyRead(cfg: Config, p: Parser, lines: seq<string>)
    ensures OnlyReads(p, HandleLines(cfg, p, lines))
    decreases |lines|
  {
    if lines != [] {
      var next := HandleLine(cfg, p, lines[0]);
      LineOnlyReads(cfg, p, lines[0]);
      LinesOnlyRead(cfg, next, lines[1..]);
      hide HandleLine;
      ReadsCompose(p, next, HandleLines(cfg, next, lines[1..]));
    }
  }

  lemma LineOnlyReads(cfg: Config, p: Parser, line: string)
    ensures OnlyReads(p, HandleLine(cfg, p, line))
  {
    hide Refusal;
  }

  lemma ReadsCompose(p: Parser, q: Parser, r: Parser)
    requires OnlyReads(p, q) && OnlyReads(q, r)
    ensures OnlyReads(p, r)
  {
    forall i | |p.replies| <= i < |r.replies| ensures !r.replies[i].body.Settled? {
      if i < |q.replies| {
        assert r.replies[..|q.replies|][i] == q.replies[i];
      }
    }
    assert r.replies[..|p.replies|] == r.replies[..|q.replies|][..|p.replies|];
  }

  lemma PushOnlyReads(cfg: Config, p: Parser, chunk: string)
    ensures OnlyReads(p, Push(cfg, p, chunk))
  {
    hide Split, ByteLen, HandleLines;
    if !p.terminated && !Trips(p, chunk) {
      var parts := Split(p.buffer + chunk, '\n');
      LinesOnlyRead(cfg, p.(buffer := Open(parts), bufferBytes := ByteLen(Open(parts))), Closed(parts));
    }
  }

  /** Operation `j` settles the call in frame `n` with `outcome`, and finds it pending under `id`. */
  ghost predicate SettledAt(cfg: Config, ops: seq<Op>, j: nat, n: nat, id: Id, outcome: Outcome) {
    && j < |ops| && ops[j] == DoSettle(n, outcome)
    && n in Run(cfg, ops[..j]).pending && Run(cfg, ops[..j]).pending[n] == id
  }

  lemma SettledAtLonger(cfg: Config, ops: seq<Op>, j: nat, n: nat, id: Id, outcome: Outcome)
    requires ops != [] && SettledAt(cfg, ops[..|ops| - 1], j, n, id, outcome)
    ensures SettledAt(cfg, ops, j, n, id, outcome)
  {
    hide Run;
    assert ops[..|ops| - 1][..j] == ops[..j];
  }

  /** Every outcome that was written is that of a settlement that met the call pending. */
  lemma {:induction false} OutcomeIsSettled(cfg: Config, ops: seq<Op>, i: nat)
    requires i < |Run(cfg, ops).replies| && Run(cfg, ops).replies[i].body.Settled?
    ensures var r := Run(cfg, ops).replies[i];
            r.id.Some? && exists j: nat :: SettledAt(cfg, ops, j, r.frame, r.id.value, r.body.outcome)
    decreases |ops|
  {
    hide Push, Settle, SettledAt;
    if ops != [] {
      var front, op := ops[..|ops| - 1], ops[|ops| - 1];
      var p, q := Run(cfg, front), Run(cfg, ops);
      var r := q.replies[i];
      if op.DoPush? {
        PushOnlyReads(cfg, p, op.chunk);
      } else {
        SettlementIsWritten(p, op.frame, op.outcome);
      }
      if i < |p.replies| {
        assert p.replies[i] == r;
        OutcomeIsSettled(cfg, front, i);
        var j: nat :| SettledAt(cfg, front, j, r.frame, r.id.value, r.body.outcome);
        SettledAtLonger(cfg, ops, j, r.frame, r.id.value, r.body.outcome);
      } else {
        SettledLast(cfg, ops, op.frame, p.pending[op.frame], op.outcome);
      }
    }
  }

  lemma SettledLast(cfg: Config, ops: seq<Op>, n: nat, id: Id, outcome: Outcome)
    requires ops != [] && ops[|ops| - 1] == DoSettle(n, outcome)
    requires n in Run(cfg, ops[..|ops| - 1]).pending && Run(cfg, ops[..|ops| - 1]).pending[n] == id
    ensures SettledAt(cfg, ops, |ops| - 1, n, id, outcome)
  {
  }

  ghost predicate OnlyReply(p: Parser, i: nat, r: Reply) {
    && i < |p.replies| && p.replies[i] == r
    && forall k :: 0 <= k < |p.replies| && p.replies[k].frame == r.frame ==> k == i
  }

  lemma RepliesApart(cfg: Config, ops: seq<Op>, i: nat)
    requires i < |Run(cfg, ops).replies|
    ensures OnlyReply(Run(cfg, ops), i, Run(cfg, ops).replies[i])
  {
    RunOk(cfg, ops);
    hide Run, InFlightOk, ForwardsOk, Framed, Replied;
  }

  /**
   * In every run, a call that went to the Router is pending without a reply, or has exactly one, and that carries the
   * outcome, text or failure, of a settlement that met the call pending, under the call's own id.
   */
  lemma ForwardedCallGetsItsOutcome(cfg: Config, ops: seq<Op>, n: nat)
    requires Sent(Run(cfg, ops), n) && n !in Run(cfg, ops).pending
    ensures var p := Run(cfg, ops);
            exists i: nat, j: nat, id, outcome ::
              && SettledAt(cfg, ops, j, n, id, outcome)
              && OnlyReply(p, i, Reply(n, Some(id), Settled(outcome)))
  {
    hide Run, Says, Replied, ForwardOk;
    RunIsTold(cfg, ops);
    var p := Run(cfg, ops);
    SentIsCall(cfg, ops, n);
    EachCallIsAnsweredOnce(cfg, ops, n);
    var i: nat :| i < |p.replies| && p.replies[i].frame == n;
    SaysOutcome(p, p.replies[i]);
    OutcomeIsSettled(cfg, ops, i);
    RepliesApart(cfg, ops, i);
    var r := p.replies[i];
    var j: nat :| SettledAt(cfg, ops, j, r.frame, r.id.value, r.body.outcome);
    assert OnlyReply(p, i, Reply(n, Some(r.id.value), Settled(r.body.outcome)));
  }

  lemma SaysOutcome(p: Parser, r: Reply)
    requires Says(p, r) && r.frame < |p.handled| && p.handled[r.frame].Call?
    ensures Sent(p, r.frame) ==> r.body.Settled?
    ensures !Sent(p, r.frame) ==> r.body.Error?
  {
    hide Sent;
  }

  lemma SentIsCall(cfg: Config, ops: seq<Op>, n: nat)
    requires Sent(Run(cfg, ops), n)
    ensures n < |Run(cfg, ops).handled| && Run(cfg, ops).handled[n].Call?
  {
    OnlyDeclaredCallsAreForwarded(cfg, ops);
    hide Run;
    var p := Run(cfg, ops);
    var i :| 0 <= i < |p.forwarded| && p.forwarded[i].frame == n;
    assert ForwardOk(cfg, p.handled, p.forwarded[i]);
  }

  /** In every run, a call that never went to the Router is not pending, and its one reply is an error. */
  lemma UnforwardedCallGetsAnError(cfg: Config, ops: seq<Op>, n: nat)
    requires n < |Run(cfg, ops).handled| && Run(cfg, ops).handled[n].Call? && !Sent(Run(cfg, ops), n)
    ensures var p := Run(cfg, ops);
            && n !in p.pending
            && exists i: nat, code :: OnlyReply(p, i, Reply(n, p.handled[n].id, Error(code)))
  {
    hide Run, Says, Sent, Replied, ForwardOk;
    RunIsTold(cfg, ops);
    var p := Run(cfg, ops);
    EachCallIsAnsweredOnce(cfg, ops, n);
    var i: nat :| i < |p.replies| && p.replies[i].frame == n && p.replies[i].id == p.handled[n].id;
    SaysOutcome(p, p.replies[i]);
    RepliesApart(cfg, ops, i);
    assert OnlyReply(p, i, Reply(n, p.handled[n].id, Error(p.replies[i].body.code)));
  }

  lemma {:induction false} RepliesStay(cfg: Config, ops: seq<Op>, j: nat)
    requires j <= |ops|
    ensures Run(cfg, ops[..j]).replies <= Run(cfg, ops).replies
    decreases |ops|
  {
    hide Push, Settle;
    if j == |ops| {
      assert ops[..j] == ops;
    } else {
      var front, op := ops[..|ops| - 1], ops[|ops| - 1];
      RepliesStay(cfg, front, j);
      assert front[..j] == ops[..j];
      if op.DoPush? {
        PushOnlyReads(cfg, Run(cfg, front), op.chunk);
      } else {
        SettlementIsWritten(Run(cfg, front), op.frame, op.outcome);
      }
    }
  }

  /** And conversely: a settlement that meets its call pending is, ever after, what that call's one reply carries. */
  lemma SettlementReachesItsCall(cfg: Config, ops: seq<Op>, j: nat, n: nat, id: Id, outcome: Outcome)
    requires SettledAt(cfg, ops, j, n, id, outcome)
    ensures Sent(Run(cfg, ops[..j]), n)
    ensures exists i: nat :: OnlyReply(Run(cfg, ops), i, Reply(n, Some(id), Settled(outcome)))
  {
    hide Push, Settle, Sent, OnlyReply, Says;
    var before := Run(cfg, ops[..j]);
    RunIsTold(cfg, ops[..j]);
    SettlementIsWritten(before, n, outcome);
    assert ops[..j + 1][..j] == ops[..j];
    RepliesStay(cfg, ops, j + 1);
    RepliesApart(cfg, ops, |before.replies|);
  }

  /** The answer to a frame that is not a call. */
  ghost predicate Fits(f: Frame, r: Reply) {
    match f
    case Malformed => r.id == None && r.body == Error(-32700)
    case NotARecord => r.id == None && r.body == Error(-32600)
    case Initialize(id) => r.id == id && r.body == Served
    case ListTools(id) => r.id == id && r.body == Served
    case OtherMethod(id) => r.id == id && r.body == Error(-32601)
    case _ => false
  }

  /** In every run, any other frame has exactly one reply and the right one, and the one notification has none. */
  lemma OtherFramesAreAnswered(cfg: Config, ops: seq<Op>, n: nat)
    requires n < |Run(cfg, ops).handled| && !Run(cfg, ops).handled[n].Call?
    ensures var p := Run(cfg, ops);
            && (p.handled[n].Initialized? ==> forall i :: 0 <= i < |p.replies| ==> p.replies[i].frame != n)
            && (!p.handled[n].Initialized? ==>
                  exists i: nat, r :: OnlyReply(p, i, r) && r.frame == n && Fits(p.handled[n], r))
  {
    var p := Run(cfg, ops);
    RunIsTold(cfg, ops);
    RunOk(cfg, ops);
    hide Run, InFlightOk, ForwardsOk, Framed, OnlyReply, Sent;
    assert Replied(p, n) <==> !p.handled[n].Initialized?;
    if !p.handled[n].Initialized? {
      var i: nat :| i < |p.replies| && p.replies[i].frame == n;
      assert Says(p, p.replies[i]);
      RepliesApart(cfg, ops, i);
      assert Fits(p.handled[n], p.replies[i]);
    }
  }

  // ---- what is read ----

  /** Everything the provider wrote. */
  ghost function Received(ops: seq<Op>): string {
    if ops == [] then ""
    else
      var last := ops[|ops| - 1];
      Received(ops[..|ops| - 1]) + (if last.DoPush? then last.chunk else "")
  }

  /** The frames of these lines; blank lines hold none. */
  ghost function Frames(cfg: Config, lines: seq<string>): seq<Frame> {
    if lines == [] then []
    else (if cfg.blank(lines[0]) then [] else [cfg.decode(lines[0])]) + Frames(cfg, lines[1..])
  }

  lemma {:induction false} FramesOfBoth(cfg: Config, a: seq<string>, b: seq<string>)
    ensures Frames(cfg, a + b) == Frames(cfg, a) + Frames(cfg, b)
  {
    if a == [] {
      assert a + b == b;
    } else {
      FramesOfBoth(cfg, a[1..], b);
      assert (a + b)[1..] == a[1..] + b;
      Associative(if cfg.blank(a[0]) then [] else [cfg.decode(a[0])], Frames(cfg, a[1..]), Frames(cfg, b));
    }
  }

  lemma {:induction false} LinesAreRead(cfg: Config, p: Parser, lines: seq<string>)
    requires !HandleLines(cfg, p, lines).terminated
    ensures !p.terminated && HandleLines(cfg, p, lines).handled == p.handled + Frames(cfg, lines)
    decreases |lines|
  {
    if lines != [] {
      var next := HandleLine(cfg, p, lines[0]);
      LinesAreRead(cfg, next, lines[1..]);
      LineIsRead(cfg, p, lines[0]);
      hide HandleLine;
      Associative(p.handled, if cfg.blank(lines[0]) then [] else [cfg.decode(lines[0])], Frames(cfg, lines[1..]));
    }
  }

  lemma LineIsRead(cfg: Config, p: Parser, line: string)
    requires !HandleLine(cfg, p, line).terminated
    ensures !p.terminated
    ensures HandleLine(cfg, p, line).handled == p.handled + (if cfg.blank(line) then [] else [cfg.decode(line)])
  {
    hide Refusal;
  }

  lemma {:induction false} LinesKeepBuffer(cfg: Config, p: Parser, lines: seq<string>)
    requires !HandleLines(cfg, p, lines).terminated
    ensures HandleLines(cfg, p, lines).buffer == p.buffer
    decreases |lines|
  {
    if lines != [] {
      var next := HandleLine(cfg, p, lines[0]);
      LinesAreRead(cfg, next, lines[1..]);
      LineKeepsBuffer(cfg, p, lines[0]);
      LinesKeepBuffer(cfg, next, lines[1..]);
    }
  }

  lemma LineKeepsBuffer(cfg: Config, p: Parser, line: string)
    requires !HandleLine(cfg, p, line).terminated
    ensures HandleLine(cfg, p, line).buffer == p.buffer
  {
    hide Refusal;
  }

  /**
   * In every run that has not stopped, what the provider wrote was read completely: each of its finished lines that is
   * not blank was handled as a frame, once and in order, and the unfinished one is what the parser retains.
   */
  lemma {:induction false} EveryLineIsRead(cfg: Config, ops: seq<Op>)
    requires !Run(cfg, ops).terminated
    ensures var p, parts := Run(cfg, ops), Split(Received(ops), '\n');
            p.handled == Frames(cfg, Closed(parts)) && p.buffer == Open(parts)
    decreases |ops|
  {
    hide Push, Settle, Split, Frames;
    if ops == [] {
      NothingIsReceived(cfg);
    } else {
      var front, op := ops[..|ops| - 1], ops[|ops| - 1];
      if op.DoPush? {
        ChunkIsRead(cfg, Run(cfg, front), op.chunk);
        EveryLineIsRead(cfg, front);
        ChunkIsReadAfter(cfg, Run(cfg, front), op.chunk, Received(front));
      } else {
        SettlementIsWritten(Run(cfg, front), op.frame, op.outcome);
        EveryLineIsRead(cfg, front);
        assert Received(ops) == Received(front);
      }
    }
  }

  lemma NothingIsReceived(cfg: Config)
    ensures Frames(cfg, Closed(Split("", '\n'))) == [] && Open(Split("", '\n')) == ""
  {
  }

  lemma ChunkIsRead(cfg: Config, p: Parser, chunk: string)
    requires !Push(cfg, p, chunk).terminated
    ensures !p.terminated && !Trips(p, chunk)
  {
    hide Split, HandleLines, ByteLen;
  }

  lemma ChunkIsReadAfter(cfg: Config, p: Parser, chunk: string, text: string)
    requires !Push(cfg, p, chunk).terminated && !p.terminated && !Trips(p, chunk)
    requires p.handled == Frames(cfg, Closed(Split(text, '\n'))) && p.buffer == Open(Split(text, '\n'))
    ensures var q, parts := Push(cfg, p, chunk), Split(text + chunk, '\n');
            q.handled == Frames(cfg, Closed(parts)) && q.buffer == Open(parts)
  {
    hide Split, HandleLines, ByteLen, Trips, Frames;
    SplitAppend(text, chunk, '\n');
    var before, parts := Closed(Split(text, '\n')), Split(p.buffer + chunk, '\n');
    var q := p.(buffer := Open(parts), bufferBytes := ByteLen(Open(parts)));
    LinesAreRead(cfg, q, Closed(parts));
    LinesKeepBuffer(cfg, q, Closed(parts));
    FramesOfBoth(cfg, before, Closed(parts));
    assert Closed(before + parts) == before + Closed(parts);
  }
}
