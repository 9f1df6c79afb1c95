/**
 * The Router's end of the control channel as the object it is: a table of pending frames, each
 * owned by the connection it came on. Every method is proved to do what `ClaudeSpec` says.
 */
module BridgeControl {
  import opened Options
  import opened ClaudeSpec

  /** A line of a connection after JSON parsing; a field that is missing or not a string is `None`. */
  datatype Line =
    | Blank
    | Unparsable
    | NotARecord
    | Frame(token: Option<string>, id: Option<string>, name: Option<string>)

  /** What a line came to: nothing, the end of its connection, a frame to hand to the session, or a refused frame. */
  datatype Outcome = Ignored | Destroyed | Surfaced(frame: FrameId) | Overflowed

  /** One line: the first frame of a connection must carry the token, and a frame must carry id and name. */
  function OnLine(c: Control, known: set<Socket>, token: string, socket: Socket, line: Line): (Control,
      set<Socket>, Outcome) {
    var killed := (c.(dead := c.dead + {socket}), known, Destroyed);
    match line
    case Blank => (c, known, Ignored)
    case Unparsable => killed
    case NotARecord => killed
    case Frame(t, id, name) =>
      if socket !in known && t != Some(token) then killed
      else if id == None || name == None then (killed.0, known + {socket}, Destroyed)
      else
        var (c', admission) := Admit(c, id.value, socket);
        match admission
        case Accepted => (c', known + {socket}, Surfaced(id.value))
        case Duplicate => (c', known + {socket}, Destroyed)
        case Bounded => (c', known + {socket}, Overflowed)
  }

  /** Only a connection that has shown the token gets a frame through, and only the last pending frame is new. */
  lemma OnlyTheTokenHolderIsHeard(c: Control, known: set<Socket>, token: string, socket: Socket, line: Line)
    ensures var (c', known', out) := OnLine(c, known, token, socket, line);
            && (out.Surfaced? <==> line.Frame? && line.id.Some? && line.name.Some? && line.id.value !in c.pending
                                   && |c.pending| < MAX_PENDING && (socket in known || line.token == Some(token)))
            && (out.Surfaced? ==>
                c'.pending == c.pending[out.frame := socket] && c'.replies == c.replies && c'.dead == c.dead)
            && (!out.Surfaced? ==> c'.pending == c.pending)
            && (c'.replies != c.replies ==> out == Overflowed && socket in known')
            && (socket in known' ==> socket in known || (line.Frame? && line.token == Some(token)))
            && (forall s :: s != socket ==> (s in known' <==> s in known) && (s in c'.dead <==> s in c.dead))
  {
  }

  /**
   * Exactly which lines end their connection: one that is no record, one without the token on a connection that has
   * not shown it, one without id or name, and one that repeats a pending frame. A full table refuses, if anyone is
   * there to hear it. Nothing else ends a connection or is answered.
   */
  lemma LinesThatEndTheirConnection(c: Control, known: set<Socket>, token: string, socket: Socket, line: Line)
    ensures var (c', known', out) := OnLine(c, known, token, socket, line);
            var trusted := line.Frame? && (socket in known || line.token == Some(token));
            var complete := trusted && line.id.Some? && line.name.Some?;
            && (out == Ignored <==> line == Blank)
            && (out == Destroyed <==> line != Blank && !(complete && line.id.value !in c.pending))
            && (out == Overflowed <==> complete && line.id.value !in c.pending && |c.pending| >= 16)
            && c'.dead == (if out == Destroyed then c.dead + {socket} else c.dead)
            && (trusted ==> known' == known + {socket}) && (!trusted ==> known' == known)
            && c'.replies == (if out == Overflowed && socket !in c.dead
                              then c.replies + [Reply(line.id.value, Refused)] else c.replies)
  {
    assert socket in known ==> known + {socket} == known;
  }

  /** A line on a connection, and the state of the channel it meets: frames may be settled between lines. */
  datatype Handled = Handled(before: Control, socket: Socket, line: Line)

  /** The connections that are authenticated after these lines. */
  function KnownAfter(token: string, past: seq<Handled>): set<Socket> {
    if past == [] then {}
    else
      var last := past[|past| - 1];
      OnLine(last.before, KnownAfter(token, past[..|past| - 1]), token, last.socket, last.line).1
  }

  ghost predicate Showed(token: string, past: seq<Handled>, socket: Socket) {
    exists i :: 0 <= i < |past| && past[i].socket == socket && past[i].line.Frame? && past[i].line.token == Some(token)
  }

  lemma ShowedMore(token: string, past: seq<Handled>, last: Handled, socket: Socket)
    ensures Showed(token, past + [last], socket) <==>
              || Showed(token, past, socket)
              || (last.socket == socket && last.line.Frame? && last.line.token == Some(token))
  {
    var all := past + [last];
    assert all[|past|] == last;
    if Showed(token, past, socket) {
      var i :| 0 <= i < |past| && past[i].socket == socket && past[i].line.Frame? && past[i].line.token == Some(token);
      assert all[i] == past[i];
    }
  }

  /** A connection is authenticated exactly when it has shown the token, whatever else happened on the channel. */
  lemma {:induction false} KnownExactlyWhenShown(token: string, past: seq<Handled>, socket: Socket)
    ensures socket in KnownAfter(token, past) <==> Showed(token, past, socket)
    decreases |past|
  {
    hide Admit;
    if past != [] {
      var front, last := past[..|past| - 1], past[|past| - 1];
      KnownExactlyWhenShown(token, front, socket);
      assert past == front + [last];
      ShowedMore(token, front, last, socket);
      OnlyTheTokenHolderIsHeard(last.before, KnownAfter(token, front), token, last.socket, last.line);
    }
  }

  /**
   * After any lines on any connections, with frames settled in between, a line surfaces a frame exactly
   * when it is complete and new, the table has room, and its connection has shown the token by then.
   */
  lemma HeardExactlyAfterTheToken(token: string, past: seq<Handled>, next: Handled)
    ensures var out := OnLine(next.before, KnownAfter(token, past), token, next.socket, next.line).2;
            out.Surfaced? <==>
              && next.line.Frame? && next.line.id.Some? && next.line.name.Some?
              && next.line.id.value !in next.before.pending && |next.before.pending| < MAX_PENDING
              && Showed(token, past + [next], next.socket)
  {
    hide OnLine;
    KnownExactlyWhenShown(token, past, next.socket);
    ShowedMore(token, past, next, next.socket);
    OnlyTheTokenHolderIsHeard(next.before, KnownAfter(token, past), token, next.socket, next.line);
  }

  class BridgeControlServer {
    const token: string
    var pending: map<FrameId, Socket>
    var closed: bool
    var dead: set<Socket>
    var authenticated: set<Socket>
    // everything written back, over all connections
    var written: seq<Reply>

    ghost function Model(): Control
      reads this
    {
      Control(pending, dead, closed, written)
    }

    constructor (token: string)
      ensures this.token == token && Model() == Control(map[], {}, false, []) && authenticated == {}
    {
      this.token := token;
      pending, closed, dead, authenticated, written := map[], false, {}, {}, [];
    }

    method Write(socket: Socket, reply: Reply)
      modifies this`written
      ensures Model() == Answered(old(Model()), socket, reply.frame, reply.body)
    {
      if socket !in dead {
        written := written + [reply];
      }
    }

    method HandleLine(socket: Socket, line: Line) returns (outcome: Outcome)
      modifies this
      ensures (Model(), authenticated, outcome) == OnLine(old(Model()), old(authenticated), token, socket, line)
    {
      if line.Blank? {
        return Ignored;
      }
      if !line.Frame? || (socket !in authenticated && line.token != Some(token)) {
        dead := dead + {socket};
        return Destroyed;
      }
      authenticated := authenticated + {socket};
      if line.id == None || line.name == None {
        dead := dead + {socket};
        return Destroyed;
      }
      var id := line.id.value;
      if id in pending {
        dead := dead + {socket};
        return Destroyed;
      }
      if |pending| >= MAX_PENDING {
        Write(socket, Reply(id, Refused));
        return Overflowed;
      }
      pending := pending[id := socket];
      return Surfaced(id);
    }

    /** `resolve`, `reject` and the frame's own deadline share this shape. */
    method Settle(id: FrameId, body: Body) returns (found: bool)
      modifies this`pending, this`written
      ensures (Model(), found) == Release(old(Model()), id, body)
      ensures found == (id in old(pending)) && pending == old(pending) - {id}
      ensures written == old(written) + (if id in old(pending) && old(pending)[id] !in dead then [Reply(id, body)]
                                         else [])
    {
      if id !in pending {
        assert pending - {id} == pending;
        return false;
      }
      var socket := pending[id];
      pending := pending - {id};
      Write(socket, Reply(id, body));
      return true;
    }

    method Resolve(id: FrameId, text: string) returns (found: bool)
      modifies this`pending, this`written
      ensures (Model(), found) == Release(old(Model()), id, Text(text))
      ensures found == (id in old(pending)) && pending == old(pending) - {id}
      ensures written == old(written) + (if id in old(pending) && old(pending)[id] !in dead
                                         then [Reply(id, Text(text))] else [])
    {
      found := Settle(id, Text(text));
    }

    method Reject(id: FrameId) returns (found: bool)
      modifies this`pending, this`written
      ensures (Model(), found) == Release(old(Model()), id, Refused)
      ensures found == (id in old(pending)) && pending == old(pending) - {id}
      ensures written == old(written) + (if id in old(pending) && old(pending)[id] !in dead then [Reply(id, Refused)]
                                         else [])
    {
      found := Settle(id, Refused);
    }

    method Expire(id: FrameId)
      modifies this`pending, this`written
      ensures Model() == Release(old(Model()), id, Expiry).0
      ensures pending == old(pending) - {id}
      ensures written == old(written) + (if id in old(pending) && old(pending)[id] !in dead then [Reply(id, Expiry)]
                                         else [])
    {
      var _ := Settle(id, Expiry);
    }

    method Close()
      modifies this
      ensures Model() == CloseControl(old(Model())) && authenticated == old(authenticated)
      ensures closed && written == old(written)
      ensures !old(closed) ==> pending == map[] && dead == old(dead) + old(pending).Values
      ensures old(closed) ==> pending == old(pending) && dead == old(dead)
    {
      if closed {
        return;
      }
      closed := true;
      var todo := pending.Keys;
      while todo != {}
        invariant closed && pending == old(pending) && written == old(written) && authenticated == old(authenticated)
        invariant todo <= pending.Keys
        invariant dead == old(dead) + set id | id in pending && id !in todo :: pending[id]
        decreases todo
      {
        var id :| id in todo;
        todo := todo - {id};
        dead := dead + {pending[id]};
      }
      assert pending.Values == set id | id in pending :: pending[id];
      pending := map[];
    }

    /** The connection is gone: drops its frames unanswered and reports whether it owned one. */
    method ReleaseSocketFrames(socket: Socket) returns (owned: bool)
      modifies this
      ensures (Model(), owned) == DropSocket(old(Model()), socket) && authenticated == old(authenticated)
      ensures closed == old(closed) && written == old(written) && dead == old(dead) + {socket}
      ensures pending == map id | id in old(pending) && old(pending)[id] != socket :: old(pending)[id]
      ensures owned <==> exists id :: id in old(pending) && old(pending)[id] == socket
    {
      owned := false;
      dead := dead + {socket};
      var todo := pending.Keys;
      while todo != {}
        invariant closed == old(closed) && written == old(written) && authenticated == old(authenticated)
        invariant dead == old(dead) + {socket} && todo <= pending.Keys
        invariant pending == map id | id in old(pending)
            && (id in todo || old(pending)[id] != socket) :: old(pending)[id]
        invariant owned == exists id :: id in old(pending) && id !in todo && old(pending)[id] == socket
        decreases todo
      {
        var id :| id in todo;
        todo := todo - {id};
        if pending[id] == socket {
          pending := pending - {id};
          owned := true;
        }
      }
      ghost var kept := map id | id in old(pending) && old(pending)[id] != socket :: old(pending)[id];
      assert pending == kept;
      assert owned ==> exists id :: id in old(pending) && id !in kept;
    }
  }
}
