/**
 * What each event keeps within one session, apart from everything that sessions share: answers are
 * never given twice, every pending frame is one the session still holds, the gate, the deadline and
 * the parked call go together, and the drain is where the hand-off says it is. The bound on pending
 * frames follows from these, and with it that the control server's own bound is never reached.
 */
module ClaudeSessionProofs {
  import opened Options
  import opened Sets
  import opened BrokerKeys
  import opened BrokerSpec
  import opened ClaudeSpec
  import opened ClaudeWorld

  /** A session after an event that leaves its identity, its public id and its tapes of parked frames alone. */
  ghost predicate SameIdentity(s: Session, t: Session) {
    && t.profile == s.profile && t.requestId == s.requestId && t.publicId == s.publicId
    && t.parkedAs == s.parkedAs && t.terminated == s.terminated && t.ttl == s.ttl
  }

  lemma ReleaseOk(c: Control, f: FrameId, body: Body, seen: set<FrameId>)
    requires ControlOk(c, seen)
    ensures var c' := Release(c, f, body).0;
            && ControlOk(c', seen)
            && c'.pending == c.pending - {f}
            && c.replies <= c'.replies
            && (forall i :: |c.replies| <= i < |c'.replies| ==> c'.replies[i] == Reply(f, body))
  {
    if f !in c.pending {
      assert c.pending - {f} == c.pending;
    }
  }

  lemma OldTextsStay(s: Session, t: Session, claims: map<string, (Profile, string)>)
    requires TextsClaimed(s, claims) && t.parkedAs == s.parkedAs && t.profile == s.profile
    requires s.control.replies <= t.control.replies
    requires forall i :: |s.control.replies| <= i < |t.control.replies| ==> !t.control.replies[i].body.Text?
    ensures TextsClaimed(t, claims)
  {
    forall i | 0 <= i < |t.control.replies| && t.control.replies[i].body.Text?
      ensures TextClaimed(t, claims, t.control.replies[i])
    {
      assert t.control.replies[i] == s.control.replies[i];
      assert TextClaimed(s, claims, s.control.replies[i]);
    }
  }

  /** Releasing a frame the session no longer holds, or never needs again, without a text. */
  lemma RejectedOk(s: Session, f: FrameId, claims: map<string, (Profile, string)>, minted: set<string>)
    requires ControlOk(s.control, s.seen) && TextsClaimed(s, claims) && DrainOk(s)
    ensures var t := Rejected(s, f);
            && ControlOk(t.control, t.seen) && TextsClaimed(t, claims) && DrainOk(t) && SameIdentity(s, t)
            && t.control.pending == s.control.pending - {f}
            && t == s.(control := t.control)
  {
    ReleaseOk(s.control, f, Refused, s.seen);
    OldTextsStay(s, Rejected(s, f), claims);
  }

  lemma LoopOk(s: Session, claims: map<string, (Profile, string)>, minted: set<string>)
    requires SessionOk(s, claims, minted) && s.drain == Busy
    ensures SessionOk(Loop(s), claims, minted) && SameIdentity(s, Loop(s))
  {
    hide TextsClaimed, ControlOk;
    OldTextsStay(s, Loop(s), claims);
    assert Holds(Loop(s)) == Holds(s);
  }

  lemma DrainMovesOk(s: Session, drain: Drain, claims: map<string, (Profile, string)>, minted: set<string>)
    requires SessionOk(s, claims, minted) && drain in {Idle, Busy} && s.drain != Idle
    ensures SessionOk(s.(drain := drain), claims, minted) && SameIdentity(s, s.(drain := drain))
  {
    OldTextsStay(s, s.(drain := drain), claims);
  }

  lemma ExpireOk(s: Session, f: FrameId, claims: map<string, (Profile, string)>, minted: set<string>)
    requires SessionOk(s, claims, minted)
    ensures SessionOk(s.(control := Release(s.control, f, Expiry).0), claims, minted)
  {
    ReleaseOk(s.control, f, Expiry, s.seen);
    OldTextsStay(s, s.(control := Release(s.control, f, Expiry).0), claims);
    hide Release, ControlOk;
  }

  /** Losing frames or sockets without an answer. */
  lemma ShrinkOk(s: Session, c: Control, claims: map<string, (Profile, string)>, minted: set<string>)
    requires SessionOk(s, claims, minted)
    requires c.replies == s.control.replies && forall f :: f in c.pending ==> f in s.control.pending
    ensures SessionOk(s.(control := c), claims, minted)
  {
    OldTextsStay(s, s.(control := c), claims);
  }

  /** At most one call is parked, and at most two frames are ever pending: one parked or handed off, and one queued. */
  lemma AtMostTwoPending(s: Session, claims: map<string, (Profile, string)>, minted: set<string>)
    requires SessionOk(s, claims, minted)
    ensures |s.control.pending| <= 2
  {
    var held := Holds(s);
    var first := OneOrNone(s.parked) + OneOrNone(HandedOff(s));
    assert |first| <= 1;
    var second := if s.queue != [] then {s.queue[0]} else {};
    assert held == first + second;
    assert |second| <= 1;
    assert |held| <= 2 by {
      assert |first + second| == |first| + |second| - |first * second|;
    }
    assert s.control.pending.Keys <= held;
    SubsetSize(s.control.pending.Keys, held);
  }

  /** So the control server's own bound of sixteen never refuses a frame of this adapter. */
  lemma ServerBoundUnreachable(s: Session, f: FrameId, socket: Socket, claims: map<string, (Profile, string)>,
      minted: set<string>)
    requires SessionOk(s, claims, minted) && f !in s.seen
    ensures Admit(s.control, f, socket).1 == Accepted
  {
    AtMostTwoPending(s, claims, minted);
  }

  lemma AdmittedOk(c: Control, f: FrameId, socket: Socket, seen: set<FrameId>)
    requires ControlOk(c, seen) && f !in seen
    ensures ControlOk(c.(pending := c.pending[f := socket]), seen + {f})
  {
  }

  /** A frame just admitted and handed to the drain or to the queue. */
  lemma PushedOk(s: Session, s1: Session, f: FrameId, socket: Socket, claims: map<string, (Profile, string)>,
      minted: set<string>)
    requires SessionOk(s, claims, minted) && f !in s.seen && !s.gate
    requires s1 == s.(control := s.control.(pending := s.control.pending[f := socket]), seen := s.seen + {f})
    requires TryPush(s1, f).1
    ensures SessionOk(TryPush(s1, f).0, claims, minted) && SameIdentity(s, TryPush(s1, f).0)
  {
    hide TextsClaimed, ControlOk;
    var t := TryPush(s1, f).0;
    AdmittedOk(s.control, f, socket, s.seen);
    OldTextsStay(s, t, claims);
    assert Holds(t) == Holds(s) + {f};
  }

  /** A frame just admitted and refused at once. */
  lemma RefusedOk(s: Session, s1: Session, f: FrameId, socket: Socket, claims: map<string, (Profile, string)>,
      minted: set<string>)
    requires SessionOk(s, claims, minted) && f !in s.seen
    requires s1 == s.(control := s.control.(pending := s.control.pending[f := socket]), seen := s.seen + {f})
    ensures SessionOk(Rejected(s1, f), claims, minted) && SameIdentity(s, Rejected(s1, f))
  {
    hide TextsClaimed, ControlOk, DrainOk, FramesOk, Rejected;
    AdmittedOk(s.control, f, socket, s.seen);
    OldTextsStay(s, s1, claims);
    SameDrain(s, s1);
    RejectedOk(s1, f, claims, minted);
    NotYetPending(s, f);
    assert s1.control.pending - {f} == s.control.pending;
    SameFrames(s, Rejected(s1, f));
  }

  lemma NotYetPending(s: Session, f: FrameId)
    requires ControlOk(s.control, s.seen) && f !in s.seen
    ensures f !in s.control.pending
  {
  }

  lemma SameDrain(s: Session, t: Session)
    requires DrainOk(s) && t == s.(control := t.control, seen := t.seen)
    ensures DrainOk(t)
  {
  }

  lemma SameFrames(s: Session, t: Session)
    requires FramesOk(s) && t == s.(control := t.control, seen := t.seen) && t.control.pending == s.control.pending
        && s.seen <= t.seen
    ensures FramesOk(t)
  {
    assert Holds(t) == Holds(s);
    hide Holds;
  }

  lemma ArriveOk(s: Session, f: FrameId, socket: Socket, claims: map<string, (Profile, string)>, minted: set<string>)
    requires SessionOk(s, claims, minted) && f !in s.seen
    ensures SessionOk(Arrive(s, f, socket), claims, minted)
    ensures SameIdentity(s, Arrive(s, f, socket))
  {
    hide SessionOk, SameIdentity, Rejected, TryPush;
    ServerBoundUnreachable(s, f, socket, claims, minted);
    var s1 := s.(control := s.control.(pending := s.control.pending[f := socket]), seen := s.seen + {f});
    RefusedOk(s, s1, f, socket, claims, minted);
    if !s.gate && TryPush(s1, f).1 {
      PushedOk(s, s1, f, socket, claims, minted);
    }
  }

  /** A session that closes keeps its own invariant, and lets go of its parked call. */
  lemma ClosedOk(sh: Shared, key: SessionKey, s: Session, claims: map<string, (Profile, string)>, minted: set<string>)
    requires MapsValid(sh.broker) && SessionOk(s, claims, minted)
    ensures var t := Close(sh, key, s).1;
            && SessionOk(t, claims, minted) && t.terminated
            && t.parkedAs == s.parkedAs && t.profile == s.profile && t.requestId == s.requestId
            && (!s.terminated ==> t.publicId == None && !t.ttl)
            && (s.terminated ==> t == s)
  {
    hide CancelScope, MapsValid;
    if !s.terminated && s.parked.Some? {
      RejectedOk(s, s.parked.value, claims, minted);
      OldTextsStay(Rejected(s, s.parked.value), Close(sh, key, s).1, claims);
      hide ControlOk, Release;
    } else if !s.terminated {
      OldTextsStay(s, Close(sh, key, s).1, claims);
    }
  }

  /** The frame whose promise is spent and that was not parked is answered at once. */
  lemma SpentOk(s: Session, claims: map<string, (Profile, string)>, minted: set<string>)
    requires SessionOk(s, claims, minted) && s.handoff.Ready? && s.drain == Resuming
    ensures SessionOk(Rejected(s.(handoff := NoPromise, drain := Idle), s.handoff.frame), claims, minted)
  {
    var s1 := s.(handoff := NoPromise, drain := Idle);
    OldTextsStay(s, s1, claims);
    RejectedOk(s1, s.handoff.frame, claims, minted);
    hide ControlOk, Release, Answered;
  }

  lemma ParkedOk(s: Session, pid: string, claims: map<string, (Profile, string)>, minted: set<string>)
    requires SessionOk(s, claims, minted) && s.handoff.Ready? && s.drain == Resuming && !s.gate
    ensures var f := s.handoff.frame;
            SessionOk(s.(handoff := NoPromise, drain := Idle, gate := true, parked := Some(f), publicId := Some(pid),
                         ttl := true, parkedAs := s.parkedAs[f := pid]), claims, minted + {pid})
  {
    var f := s.handoff.frame;
    var t := s.(handoff := NoPromise, drain := Idle, gate := true, parked := Some(f), publicId := Some(pid),
                ttl := true, parkedAs := s.parkedAs[f := pid]);
    forall i | 0 <= i < |t.control.replies| && t.control.replies[i].body.Text?
      ensures TextClaimed(t, claims, t.control.replies[i])
    {
      assert TextClaimed(s, claims, s.control.replies[i]);
    }
  }

  /** Delivering a claimed result: the text goes to the frame that was parked under the claimed public id. */
  lemma ContinuedOk(sh: Shared, key: SessionKey, s: Session, pid: string, rid: string, profile: Profile, text: string,
                    claims: map<string, (Profile, string)>, minted: set<string>)
    requires SessionOk(s, claims, minted) && s.publicId == Some(pid) && s.profile == profile
    requires pid !in claims && pid in minted
    ensures SessionOk(Continue(sh, key, s, pid, rid, text).1, claims[pid := (profile, text)], minted)
  {
    var f := s.parked.value;
    var claims' := claims[pid := (profile, text)];
    var t := Continue(sh, key, s, pid, rid, text).1;
    ReleaseOk(s.control, f, Text(text), s.seen);
    forall i | 0 <= i < |t.control.replies| && t.control.replies[i].body.Text?
      ensures TextClaimed(t, claims', t.control.replies[i])
    {
      if i < |s.control.replies| {
        assert t.control.replies[i] == s.control.replies[i];
        assert TextClaimed(s, claims, s.control.replies[i]);
      }
    }
    hide ControlOk, Release, Answered, TextsClaimed, TextClaimed;
  }
}
