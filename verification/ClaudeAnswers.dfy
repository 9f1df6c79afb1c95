/**
 * Every control frame is accounted for. Each way a frame can leave the pending table is stated by what
 * is then written back, on the fields of the control channel: a frame that leaves is answered in that
 * very step, with the answer its leaving calls for, unless its connection is dead, is the one that is
 * going, or the channel is closing; it is never answered again. So in every run a frame the session has
 * seen is pending, or was answered exactly once, or was lost with its connection. What a single event
 * does to one frame comes first, then one step of all sessions, then whole runs.
 */
module ClaudeAnswers {
  import opened Options
  import opened OrderedMaps
  import opened BrokerKeys
  import opened BrokerSpec
  import BrokerRuns
  import opened ClaudeSpec
  import opened ClaudeWorld
  import opened ClaudeSessionProofs
  import opened ClaudeProofs
  import opened ClaudeRuns
  import opened ClaudeTheorems
  import opened ClaudeResults
  import opened ClaudeContinuations

  // ---- one event and one frame ----

  ghost predicate Replied(c: Control, f: FrameId) {
    exists i :: 0 <= i < |c.replies| && c.replies[i].frame == f
  }

  /** `d` is `c` with at most one more answer, which is about `g`. */
  ghost predicate Writes(c: Control, d: Control, g: FrameId, body: Body) {
    d.replies == c.replies || d.replies == c.replies + [Reply(g, body)]
  }

  /** From `c` to `d`, frame `f` is still pending where it was, or has its answer, or was lost. */
  ghost predicate Fate(c: Control, d: Control, f: FrameId, body: Body, lost: bool)
    requires f in c.pending
  {
    if f in d.pending then d.pending[f] == c.pending[f]
    else if lost then !Replied(d, f)
    else Reply(f, body) in d.replies
  }

  /** From `c` to `d`, a frame that was not pending stays so, with the answer it has or with none. */
  ghost predicate Quiet(c: Control, d: Control, f: FrameId) {
    f !in d.pending && (Replied(d, f) <==> Replied(c, f))
  }

  lemma WritesReplied(c: Control, d: Control, g: FrameId, body: Body, f: FrameId)
    requires Writes(c, d, g, body)
    ensures Replied(c, f) ==> Replied(d, f)
    ensures f != g || d.replies == c.replies ==> (Replied(d, f) <==> Replied(c, f))
    ensures d.replies != c.replies ==> Replied(d, g) && Reply(g, body) in d.replies
  {
    if Replied(c, f) {
      var i :| 0 <= i < |c.replies| && c.replies[i].frame == f;
      assert d.replies[i].frame == f;
    }
    if d.replies != c.replies {
      assert d.replies[|c.replies|] == Reply(g, body);
    }
  }

  /** Settling one frame, on the fields: it leaves, and is answered exactly when its connection is open. */
  lemma SettledFrame(c: Control, g: FrameId, body: Body)
    ensures var (d, found) := Release(c, g, body);
            && (found <==> g in c.pending)
            && d.pending == c.pending - {g} && d.dead == c.dead && d.closed == c.closed
            && d.replies == if g in c.pending && c.pending[g] !in c.dead then c.replies + [Reply(g, body)]
                            else c.replies
  {
    if g !in c.pending {
      assert c.pending - {g} == c.pending;
    }
  }

  lemma SettledFate(c: Control, g: FrameId, body: Body, f: FrameId)
    requires f in c.pending && !Replied(c, f)
    ensures Fate(c, Release(c, g, body).0, f, body, c.pending[f] in c.dead)
  {
    SettledFrame(c, g, body);
    WritesReplied(c, Release(c, g, body).0, g, body, f);
    hide Release, Replied;
  }

  lemma SettledQuiet(c: Control, g: FrameId, body: Body, f: FrameId)
    requires f !in c.pending
    ensures Quiet(c, Release(c, g, body).0, f)
  {
    SettledFrame(c, g, body);
    WritesReplied(c, Release(c, g, body).0, g, body, f);
    hide Release, Replied;
  }

  lemma SameFate(c: Control, d: Control, f: FrameId, body: Body, lost: bool)
    requires d.pending == c.pending && d.replies == c.replies
    ensures f in c.pending ==> Fate(c, d, f, body, lost)
    ensures f !in c.pending ==> Quiet(c, d, f)
  {
  }

  lemma ClosedFate(sh: Shared, key: SessionKey, s: Session, f: FrameId)
    requires MapsValid(sh.broker)
    ensures var c, d := s.control, Close(sh, key, s).1.control;
            && (f in c.pending && !Replied(c, f) ==> Fate(c, d, f, Refused, c.pending[f] in c.dead))
            && (f !in c.pending ==> Quiet(c, d, f))
  {
    hide MapsValid, CancelScope, Release, Fate, Quiet, Replied;
    if !s.terminated && s.parked.Some? {
      if f !in s.control.pending {
        SettledQuiet(s.control, s.parked.value, Refused, f);
      } else if !Replied(s.control, f) {
        SettledFate(s.control, s.parked.value, Refused, f);
      }
    } else {
      SameFate(s.control, s.control, f, Refused, f in s.control.pending && s.control.pending[f] in s.control.dead);
    }
  }

  lemma DroppedFrames(c: Control, socket: Socket, f: FrameId)
    ensures var d := DropSocket(c, socket).0;
            && d.replies == c.replies && d.dead == c.dead + {socket} && d.closed == c.closed
            && (f in d.pending <==> f in c.pending && c.pending[f] != socket)
            && (f in d.pending ==> d.pending[f] == c.pending[f])
            && (DropSocket(c, socket).1 <==> d.pending != c.pending)
  {
  }

  lemma GoneFate(sh: Shared, key: SessionKey, s: Session, socket: Socket, f: FrameId)
    requires MapsValid(sh.broker) && (f in s.control.pending ==> !Replied(s.control, f))
    ensures var c, d := s.control, DropSocket(s.control, socket).0;
            var e := Close(sh, key, s.(control := d)).1.control;
            && (f in c.pending ==> Fate(c, d, f, Refused, c.pending[f] in c.dead || c.pending[f] == socket))
            && (f in c.pending ==> Fate(c, e, f, Refused, c.pending[f] in c.dead || c.pending[f] == socket))
            && (f !in c.pending ==> Quiet(c, d, f) && Quiet(c, e, f))
  {
    hide MapsValid, Close, DropSocket;
    DroppedFrames(s.control, socket, f);
    ClosedFate(sh, key, s.(control := DropSocket(s.control, socket).0), f);
  }

  lemma ClosingFate(c: Control, f: FrameId)
    requires f in c.pending ==> !Replied(c, f)
    ensures var d := CloseControl(c);
            && d.closed && d.replies == c.replies
            && (c.closed ==> d == c)
            && (!c.closed ==> d.pending == map[] && d.dead == c.dead + c.pending.Values)
            && (f in c.pending ==> Fate(c, d, f, Refused, true))
            && (f !in c.pending ==> Quiet(c, d, f))
  {
  }

  /** The drain resumes on a call: nothing is parked then, so only the frame handed off can be answered. */
  lemma ResumedFate(sh: Shared, key: SessionKey, s: Session, pid: string, f: FrameId)
    requires MapsValid(sh.broker) && s.handoff.Ready? && s.parked == None
    requires f in s.control.pending ==> !Replied(s.control, f)
    ensures var c, d := s.control, Resume(sh, key, s, pid).1.control;
            && (f in c.pending ==> Fate(c, d, f, Refused, c.pending[f] in c.dead))
            && (f !in c.pending ==> Quiet(c, d, f))
  {
    hide MapsValid, Create, CancelScope, Release, Fate, Quiet, Replied;
    var g := s.handoff.frame;
    if f !in s.control.pending {
      SettledQuiet(s.control, g, Refused, f);
    } else {
      SettledFate(s.control, g, Refused, f);
    }
    SameFate(s.control, s.control, f, Refused, f in s.control.pending && s.control.pending[f] in s.control.dead);
  }

  lemma ContinuedFate(sh: Shared, key: SessionKey, s: Session, pid: string, rid: string, text: string, f: FrameId)
    requires f in s.control.pending ==> !Replied(s.control, f)
    ensures var c, d := s.control, Continue(sh, key, s, pid, rid, text).1.control;
            && (f in c.pending ==> Fate(c, d, f, Text(text), c.pending[f] in c.dead))
            && (f !in c.pending ==> Quiet(c, d, f))
  {
    hide Release, Fate, Quiet, Replied;
    if s.parked.Some? {
      if f !in s.control.pending {
        SettledQuiet(s.control, s.parked.value, Text(text), f);
      } else {
        SettledFate(s.control, s.parked.value, Text(text), f);
      }
    }
    SameFate(s.control, s.control, f, Text(text), f in s.control.pending && s.control.pending[f] in s.control.dead);
  }

  /** The session turns a new call away when it is holding one, or has no room for one. */
  predicate TurnsAway(s: Session) {
    s.gate || (s.handoff != Waiting && s.queue != [])
  }

  /** What a new frame comes to, on the fields: an answer at once, or a place, and nothing else changes. */
  lemma ArrivalDecides(s: Session, g: FrameId, socket: Socket)
    requires g !in s.control.pending && |s.control.pending| < MAX_PENDING && socket !in s.control.dead
    ensures TurnsAway(s) ==>
              Arrive(s, g, socket) == s.(seen := s.seen + {g},
                  control := s.control.(replies := s.control.replies + [Reply(g, Refused)]))
    ensures !TurnsAway(s) ==>
              var t := Arrive(s, g, socket);
              && t.control == s.control.(pending := s.control.pending[g := socket]) && t.seen == s.seen + {g}
              && (s.handoff == Waiting ==> t.handoff == Ready(g) && t.queue == s.queue)
              && (s.handoff != Waiting ==> t.handoff == s.handoff && t.queue == [g])
  {
    var c1 := Admit(s.control, g, socket).0;
    SettledFrame(c1, g, Refused);
    assert c1.pending - {g} == s.control.pending;
    hide Release;
  }

  /** A frame that arrives leaves every other frame alone. */
  lemma ArrivedFate(s: Session, g: FrameId, socket: Socket, f: FrameId)
    requires g !in s.control.pending && |s.control.pending| < MAX_PENDING && socket !in s.control.dead && f != g
    ensures var c, d := s.control, Arrive(s, g, socket).control;
            && (f in c.pending ==> f in d.pending && d.pending[f] == c.pending[f])
            && (f !in c.pending ==> Quiet(c, d, f))
  {
    hide Arrive, Replied;
    ArrivalDecides(s, g, socket);
    WritesReplied(s.control, Arrive(s, g, socket).control, g, Refused, f);
  }

  // ---- one step of all sessions ----

  /** The answer a frame gets that leaves in this step. */
  function AnswerOf(step: Step): Body {
    if step.FrameTtl? then Expiry else if step.ClaimResult? then Text(step.text) else Refused
  }

  /** Nobody is there to be told: the connection is dead, or this step takes it or the whole channel away. */
  predicate Unheard(c: Control, k: SessionKey, f: FrameId, step: Step)
    requires f in c.pending
  {
    c.pending[f] in c.dead || step == SocketGone(k, c.pending[f]) || step == ControlCloses(k)
  }

  ghost predicate Accounts(s: Session, t: Session, k: SessionKey, f: FrameId, step: Step) {
    && (f in s.control.pending ==> Fate(s.control, t.control, f, AnswerOf(step), Unheard(s.control, k, f, step)))
    && (f in s.seen && f !in s.control.pending ==> Quiet(s.control, t.control, f))
  }

  lemma PendingFacts(s: Session, f: FrameId, claims: map<string, (Profile, string)>, minted: set<string>)
    requires SessionOk(s, claims, minted)
    ensures f in s.control.pending ==> f in s.seen && !Replied(s.control, f)
    ensures |s.control.pending| < MAX_PENDING
    ensures s.drain == Resuming ==> s.parked == None && s.handoff.Ready?
    ensures f !in s.seen ==> !Replied(s.control, f)
  {
    AtMostTwoPending(s, claims, minted);
    hide TextsClaimed, FramesOk;
  }

  lemma SameAccounts(s: Session, t: Session, k: SessionKey, f: FrameId, step: Step)
    requires t.control.pending == s.control.pending && t.control.replies == s.control.replies
    ensures Accounts(s, t, k, f, step)
  {
    hide Fate, Quiet;
    SameFate(s.control, t.control, f, AnswerOf(step), f in s.control.pending && Unheard(s.control, k, f, step));
  }

  lemma ClosingStepAccounts(w: World, step: Step, f: FrameId)
    requires MapsValid(w.sh.broker) && Enabled(w, step) && (step.LoopTop? || step.DrainEnds? || step.SessionTtl?)
    requires SessionOk(w.sessions[step.key], w.claims, w.minted)
    ensures Accounts(w.sessions[step.key], After(w, step).sessions[step.key], step.key, f, step)
  {
    hide MapsValid, SessionOk, Close, Loop, Fate, Quiet, Replied, Accounts;
    var key := step.key;
    var s := w.sessions[key];
    var s0 := if step.SessionTtl? then s else s.(drain := Idle);
    PendingFacts(s, f, w.claims, w.minted);
    ClosedFate(w.sh, key, s0, f);
    AccountsFrom(s, s0, Close(w.sh, key, s0).1, f, step);
    LoopWritesNothing(s);
    SameAccounts(s, Loop(s), key, f, step);
  }

  lemma LoopWritesNothing(s: Session)
    ensures Loop(s).control == s.control && Loop(s).seen == s.seen
  {
  }

  lemma OwnStepAccounts(w: World, step: Step, f: FrameId)
    requires MapsValid(w.sh.broker) && Enabled(w, step) && SessionStep(step)
    requires SessionOk(w.sessions[step.key], w.claims, w.minted)
    ensures Accounts(w.sessions[step.key], After(w, step).sessions[step.key], step.key, f, step)
  {
    hide MapsValid, SessionOk, Close, Loop, Arrive, Release, DropSocket, CloseControl, Fate, Quiet, Replied, Accounts;
    var key := step.key;
    var s := w.sessions[key];
    PendingFacts(s, f, w.claims, w.minted);
    match step
    case SdkMessage(_) => SameAccounts(s, s.(drain := Busy), key, f, step);
    case Frame(_, g, socket) => FrameAccounts(w, key, g, socket, f);
    case FrameTtl(_, g) => ExpiredAccounts(s, g, key, f);
    case SocketDestroyed(_, socket) =>
      SameAccounts(s, s.(control := s.control.(dead := s.control.dead + {socket})), key, f, step);
    case SocketGone(_, socket) => GoneAccounts(w, key, socket, f);
    case ControlCloses(_) => ClosingAccounts(s, key, f);
    case _ => ClosingStepAccounts(w, step, f);
  }

  /** A session that closes answers what it had parked, if anything. */
  lemma AccountsFrom(s: Session, s0: Session, t: Session, f: FrameId, step: Step)
    requires s0.control == s.control && AnswerOf(step) == Refused && SessionStep(step) && !step.Frame?
    requires !step.SocketGone? && !step.ControlCloses?
    requires f in s.control.pending ==> Fate(s.control, t.control, f, Refused, s.control.pending[f] in s.control.dead)
    requires f !in s.control.pending ==> Quiet(s.control, t.control, f)
    ensures Accounts(s, t, step.key, f, step)
  {
    hide Fate, Quiet;
  }

  lemma FrameAccounts(w: World, key: SessionKey, g: FrameId, socket: Socket, f: FrameId)
    requires Enabled(w, Frame(key, g, socket)) && SessionOk(w.sessions[key], w.claims, w.minted)
    ensures Accounts(w.sessions[key], Arrive(w.sessions[key], g, socket), key, f, Frame(key, g, socket))
  {
    hide SessionOk, Arrive, Quiet, Replied;
    var s := w.sessions[key];
    PendingFacts(s, g, w.claims, w.minted);
    PendingFacts(s, f, w.claims, w.minted);
    if f != g {
      ArrivedFate(s, g, socket, f);
    }
  }

  lemma ExpiredAccounts(s: Session, g: FrameId, key: SessionKey, f: FrameId)
    requires f in s.control.pending ==> !Replied(s.control, f)
    ensures Accounts(s, s.(control := Release(s.control, g, Expiry).0), key, f, FrameTtl(key, g))
  {
    hide Release, Fate, Quiet, Replied;
    if f in s.control.pending {
      SettledFate(s.control, g, Expiry, f);
    } else {
      SettledQuiet(s.control, g, Expiry, f);
    }
  }

  lemma GoneAccounts(w: World, key: SessionKey, socket: Socket, f: FrameId)
    requires MapsValid(w.sh.broker) && key in w.sessions
    requires f in w.sessions[key].control.pending ==> !Replied(w.sessions[key].control, f)
    ensures Accounts(w.sessions[key], After(w, SocketGone(key, socket)).sessions[key], key, f, SocketGone(key, socket))
  {
    hide MapsValid, Close, DropSocket, Fate, Quiet, Replied;
    GoneFate(w.sh, key, w.sessions[key], socket, f);
  }

  lemma ClosingAccounts(s: Session, key: SessionKey, f: FrameId)
    requires f in s.control.pending ==> !Replied(s.control, f)
    ensures Accounts(s, s.(control := CloseControl(s.control)), key, f, ControlCloses(key))
  {
    hide CloseControl, Fate, Quiet, Replied;
    ClosingFate(s.control, f);
  }

  lemma ResumeAccounts(w: World, key: SessionKey, pid: string, f: FrameId)
    requires MapsValid(w.sh.broker) && Enabled(w, ResumeCall(key, pid))
    requires SessionOk(w.sessions[key], w.claims, w.minted)
    ensures Accounts(w.sessions[key], After(w, ResumeCall(key, pid)).sessions[key], key, f, ResumeCall(key, pid))
  {
    hide MapsValid, SessionOk, Resume, Fate, Quiet, Replied;
    PendingFacts(w.sessions[key], f, w.claims, w.minted);
    ResumedFate(w.sh, key, w.sessions[key], pid, f);
  }

  lemma CancelAccounts(w: World, rid: string, f: FrameId)
    requires MapsValid(w.sh.broker) && Enabled(w, CancelRequest(rid))
    requires SessionOk(w.sessions[w.sh.byRequest[rid]], w.claims, w.minted)
    ensures var key := w.sh.byRequest[rid];
            Accounts(w.sessions[key], After(w, CancelRequest(rid)).sessions[key], key, f, CancelRequest(rid))
  {
    hide MapsValid, SessionOk, Close, Fate, Quiet, Replied;
    var key := w.sh.byRequest[rid];
    PendingFacts(w.sessions[key], f, w.claims, w.minted);
    ClosedFate(w.sh, key, w.sessions[key], f);
  }

  lemma ClaimAccounts(w: World, step: Step, k: SessionKey, f: FrameId)
    requires MapsValid(w.sh.broker) && Enabled(w, step) && step.ClaimResult? && k in w.sessions
    requires SessionOk(w.sessions[k], w.claims, w.minted)
    ensures k in After(w, step).sessions && Accounts(w.sessions[k], After(w, step).sessions[k], k, f, step)
  {
    hide MapsValid, SessionOk, ClaimByPublicId, Continue, ContinueForeign, Fate, Quiet, Replied, Accounts;
    PendingFacts(w.sessions[k], f, w.claims, w.minted);
    SameAccounts(w.sessions[k], w.sessions[k], k, f, step);
    var (b, claim) := ClaimByPublicId(w.sh.broker, step.pid, Some(step.profile));
    if claim.outcome == OutResolved && claim.context == Some(ClaudeSession(k)) {
      var sh1 := w.sh.(broker := b);
      ContinuedFate(sh1, k, w.sessions[k], step.pid, step.rid, step.text, f);
      ContinueAccounts(w.sessions[k], Continue(sh1, k, w.sessions[k], step.pid, step.rid, step.text).1, k, f, step);
    }
  }

  lemma ContinueAccounts(s: Session, t: Session, k: SessionKey, f: FrameId, step: Step)
    requires step.ClaimResult?
    requires f in s.control.pending ==>
               Fate(s.control, t.control, f, Text(step.text), s.control.pending[f] in s.control.dead)
    requires f !in s.control.pending ==> Quiet(s.control, t.control, f)
    ensures Accounts(s, t, k, f, step)
  {
    hide Fate, Quiet;
  }

  lemma OtherAccounts(w: World, step: Step, k: SessionKey, f: FrameId)
    requires MapsValid(w.sh.broker) && Enabled(w, step) && k in w.sessions && KeysOk(w.sessions, w.used)
    requires !step.ClaimResult? && !(step.CancelRequest? && w.sh.byRequest[step.rid] == k)
    requires !((SessionStep(step) || step.ResumeCall?) && step.key == k)
    ensures k in After(w, step).sessions && Accounts(w.sessions[k], After(w, step).sessions[k], k, f, step)
  {
    hide MapsValid, Close, Arrive, Release, DropSocket, CloseControl, Loop, Resume, Fail, Create, CancelScope,
        ClaimByPublicId, Accounts;
    SameAccounts(w.sessions[k], w.sessions[k], k, f, step);
  }

  /** In one step, a frame that leaves gets the step's answer unless nobody is there; any other stays as it is. */
  lemma StepAccounts(w: World, step: Step, k: SessionKey, f: FrameId)
    requires Core(w) && k in w.sessions
    ensures k in Follow(w, step).sessions && Accounts(w.sessions[k], Follow(w, step).sessions[k], k, f, step)
  {
    hide Core, MapsValid, SessionOk, KeysOk, Enabled, After, Accounts, IdsOk, PublicOk, ParkedApart, SessionsOk;
    CoreParts(w, k);
    CoreIds(w);
    SameAccounts(w.sessions[k], w.sessions[k], k, f, step);
    if Enabled(w, step) {
      EnabledAccounts(w, step, k, f);
    }
  }

  lemma EnabledAccounts(w: World, step: Step, k: SessionKey, f: FrameId)
    requires MapsValid(w.sh.broker) && Enabled(w, step) && k in w.sessions && KeysOk(w.sessions, w.used)
    requires SessionOk(w.sessions[k], w.claims, w.minted)
    ensures k in After(w, step).sessions && Accounts(w.sessions[k], After(w, step).sessions[k], k, f, step)
  {
    hide MapsValid, SessionOk, KeysOk, Accounts, Arrive, Close, Release, DropSocket, CloseControl, Loop, Resume,
        Fail, Create, CancelScope, ClaimByPublicId, Continue, ContinueForeign;
    if step.ClaimResult? {
      ClaimAccounts(w, step, k, f);
    } else if step.CancelRequest? && w.sh.byRequest[step.rid] == k {
      CancelAccounts(w, step.rid, f);
    } else if step.ResumeCall? && step.key == k {
      ResumeAccounts(w, k, step.pid, f);
    } else if SessionStep(step) && step.key == k {
      OwnStepAccounts(w, step, f);
    } else {
      OtherAccounts(w, step, k, f);
    }
  }

  /** A session remembers the frames it saw, and sees a new one only in that frame's own step. */
  ghost predicate Sees(s: Session, t: Session, k: SessionKey, step: Step) {
    t.seen == s.seen + (if step.Frame? && step.key == k then {step.frame} else {})
  }

  lemma ClosedSees(sh: Shared, k: SessionKey, s: Session)
    requires MapsValid(sh.broker)
    ensures Close(sh, k, s).1.seen == s.seen
  {
    hide MapsValid, CancelScope, Release;
  }

  lemma ArrivedSees(s: Session, f: FrameId, socket: Socket)
    ensures Arrive(s, f, socket).seen == s.seen + {f}
  {
    hide Release, Admit;
  }

  lemma ResumedSees(sh: Shared, k: SessionKey, s: Session, pid: string)
    requires MapsValid(sh.broker) && s.handoff.Ready?
    ensures Resume(sh, k, s, pid).1.seen == s.seen
  {
    hide MapsValid, Close, Release, Create, KeyFor;
    var s1 := Rejected(s.(handoff := NoPromise, drain := Idle), s.handoff.frame);
    ClosedSees(sh, k, s1);
    var created := Create(sh.broker, KeyFor(k, s.(handoff := NoPromise, drain := Idle), pid),
        Some(ClaudeSession(k)), false);
    RefusedCreateMaps(sh.broker, KeyFor(k, s.(handoff := NoPromise, drain := Idle), pid), Some(ClaudeSession(k)));
    if created.1.Some? {
      ClosedSees(sh.(broker := created.0), k, s1.(gate := false, parked := None, publicId := None));
    }
  }

  lemma ContinuedSees(sh: Shared, k: SessionKey, s: Session, pid: string, rid: string, text: string)
    ensures Continue(sh, k, s, pid, rid, text).1.seen == s.seen
  {
    hide Release;
  }

  lemma ClosingStepSees(w: World, step: Step)
    requires MapsValid(w.sh.broker) && Enabled(w, step)
    requires step.LoopTop? || step.DrainEnds? || step.SessionTtl? || step.SocketGone?
    ensures Sees(w.sessions[step.key], After(w, step).sessions[step.key], step.key, step)
  {
    hide MapsValid, Close, Loop, DropSocket;
    var s := w.sessions[step.key];
    LoopWritesNothing(s);
    ClosedSees(w.sh, step.key, s);
    ClosedSees(w.sh, step.key, s.(drain := Idle));
    if step.SocketGone? {
      ClosedSees(w.sh, step.key, s.(control := DropSocket(s.control, step.socket).0));
    }
  }

  lemma OwnStepSees(w: World, step: Step)
    requires MapsValid(w.sh.broker) && Enabled(w, step) && SessionStep(step)
    ensures Sees(w.sessions[step.key], After(w, step).sessions[step.key], step.key, step)
  {
    hide MapsValid, Arrive, Close, Loop, Release, DropSocket, CloseControl;
    if step.LoopTop? || step.DrainEnds? || step.SessionTtl? || step.SocketGone? {
      ClosingStepSees(w, step);
    } else if step.Frame? {
      ArrivedSees(w.sessions[step.key], step.frame, step.socket);
    }
  }

  lemma ClaimSees(w: World, step: Step, k: SessionKey)
    requires MapsValid(w.sh.broker) && Enabled(w, step) && step.ClaimResult? && k in w.sessions
    ensures k in After(w, step).sessions && Sees(w.sessions[k], After(w, step).sessions[k], k, step)
  {
    hide MapsValid, ClaimByPublicId, Continue, ContinueForeign;
    var (b, claim) := ClaimByPublicId(w.sh.broker, step.pid, Some(step.profile));
    ContinuedSees(w.sh.(broker := b), k, w.sessions[k], step.pid, step.rid, step.text);
  }

  lemma ResumeOrCancelSees(w: World, step: Step, k: SessionKey)
    requires MapsValid(w.sh.broker) && Enabled(w, step) && k in w.sessions
    requires (step.ResumeCall? && step.key == k) || (step.CancelRequest? && w.sh.byRequest[step.rid] == k)
    ensures k in After(w, step).sessions && Sees(w.sessions[k], After(w, step).sessions[k], k, step)
  {
    hide MapsValid, Close, Resume;
    if step.ResumeCall? {
      ResumedSees(w.sh, k, w.sessions[k], step.pid);
    } else {
      ClosedSees(w.sh, k, w.sessions[k]);
    }
  }

  lemma OtherSees(w: World, step: Step, k: SessionKey)
    requires MapsValid(w.sh.broker) && Enabled(w, step) && k in w.sessions && KeysOk(w.sessions, w.used)
    requires !step.ClaimResult? && !(step.CancelRequest? && w.sh.byRequest[step.rid] == k)
    requires !((SessionStep(step) || step.ResumeCall?) && step.key == k)
    ensures k in After(w, step).sessions && Sees(w.sessions[k], After(w, step).sessions[k], k, step)
  {
    hide MapsValid, Arrive, Close, Release, DropSocket, CloseControl, Loop, Resume, Fail, Create, CancelScope,
        ClaimByPublicId;
  }

  lemma EnabledSees(w: World, step: Step, k: SessionKey)
    requires MapsValid(w.sh.broker) && Enabled(w, step) && k in w.sessions && KeysOk(w.sessions, w.used)
    ensures k in After(w, step).sessions && Sees(w.sessions[k], After(w, step).sessions[k], k, step)
  {
    hide MapsValid, Arrive, Close, Release, DropSocket, CloseControl, Loop, Resume, Fail, Create, CancelScope,
        ClaimByPublicId, AfterClaim, Sees, KeysOk;
    if step.ClaimResult? {
      ClaimSees(w, step, k);
    } else if SessionStep(step) && step.key == k {
      OwnStepSees(w, step);
    } else if (step.ResumeCall? && step.key == k) || (step.CancelRequest? && w.sh.byRequest[step.rid] == k) {
      ResumeOrCancelSees(w, step, k);
    } else {
      OtherSees(w, step, k);
    }
  }

  lemma StepSees(w: World, step: Step, k: SessionKey)
    requires Core(w) && k in w.sessions
    ensures k in Follow(w, step).sessions && w.sessions[k].seen <= Follow(w, step).sessions[k].seen
    ensures forall f | f in Follow(w, step).sessions[k].seen && f !in w.sessions[k].seen ::
              Enabled(w, step) && step.Frame? && step.key == k && step.frame == f
  {
    hide Core, MapsValid, KeysOk, Enabled, After, IdsOk, PublicOk, ParkedApart, SessionsOk;
    CoreMaps(w);
    CoreIds(w);
    if Enabled(w, step) {
      EnabledSees(w, step, k);
    }
  }

  // ---- whole runs ----

  ghost predicate HasSession(maxLive: nat, maxPending: nat, steps: seq<Step>, i: nat, k: SessionKey)
    requires i <= |steps|
  {
    k in Before(maxLive, maxPending, steps, i).sessions
  }

  /** The session just before step `i`. */
  ghost function SessionAt(maxLive: nat, maxPending: nat, steps: seq<Step>, i: nat, k: SessionKey): Session
    requires i <= |steps| && HasSession(maxLive, maxPending, steps, i, k)
  {
    Before(maxLive, maxPending, steps, i).sessions[k]
  }

  /** A session stays, and from one point of a run to a later one no frame is forgotten. */
  lemma {:induction false} SeenStays(maxLive: nat, maxPending: nat, steps: seq<Step>, i: nat, j: nat, k: SessionKey)
    requires i <= j <= |steps| && HasSession(maxLive, maxPending, steps, i, k)
    ensures HasSession(maxLive, maxPending, steps, j, k)
    ensures SessionAt(maxLive, maxPending, steps, i, k).seen <= SessionAt(maxLive, maxPending, steps, j, k).seen
    decreases j
  {
    hide Core, Follow, Before, Enabled;
    if i < j {
      SeenStays(maxLive, maxPending, steps, i, j - 1, k);
      BeforeNext(maxLive, maxPending, steps, j - 1);
      StepSees(Before(maxLive, maxPending, steps, j - 1), steps[j - 1], k);
    }
  }

  /** A frame that is settled stays settled: it never comes back, and gets no other answer. */
  lemma {:induction false} SettledForGood(maxLive: nat, maxPending: nat, steps: seq<Step>, i: nat, j: nat,
      k: SessionKey, f: FrameId)
    requires i <= j <= |steps| && HasSession(maxLive, maxPending, steps, i, k)
    requires var s := SessionAt(maxLive, maxPending, steps, i, k); f in s.seen && f !in s.control.pending
    ensures HasSession(maxLive, maxPending, steps, j, k)
    ensures Quiet(SessionAt(maxLive, maxPending, steps, i, k).control,
                  SessionAt(maxLive, maxPending, steps, j, k).control, f)
    decreases j
  {
    hide Core, Follow, Before, Replied, Fate;
    if i < j {
      SettledForGood(maxLive, maxPending, steps, i, j - 1, k, f);
      SeenStays(maxLive, maxPending, steps, i, j - 1, k);
      BeforeNext(maxLive, maxPending, steps, j - 1);
      StepAccounts(Before(maxLive, maxPending, steps, j - 1), steps[j - 1], k, f);
    }
  }

  /** Frame `f` of session `k` is pending before step `i` and no longer after it. */
  ghost predicate LeavesAt(maxLive: nat, maxPending: nat, steps: seq<Step>, i: nat, k: SessionKey, f: FrameId) {
    && i < |steps| && HasSession(maxLive, maxPending, steps, i, k) && HasSession(maxLive, maxPending, steps, i + 1, k)
    && f in SessionAt(maxLive, maxPending, steps, i, k).control.pending
    && f !in SessionAt(maxLive, maxPending, steps, i + 1, k).control.pending
  }

  /** It leaves when nobody is there to be told. */
  ghost predicate LostAt(maxLive: nat, maxPending: nat, steps: seq<Step>, i: nat, k: SessionKey, f: FrameId) {
    && LeavesAt(maxLive, maxPending, steps, i, k, f)
    && Unheard(SessionAt(maxLive, maxPending, steps, i, k).control, k, f, steps[i])
  }

  ghost predicate OnlyReply(c: Control, n: nat, reply: Reply) {
    n < |c.replies| && c.replies[n] == reply && forall m :: 0 <= m < |c.replies| && c.replies[m].frame == reply.frame
                                                      ==> m == n
  }

  lemma LeftIsSettled(maxLive: nat, maxPending: nat, steps: seq<Step>, i: nat, k: SessionKey, f: FrameId)
    requires LeavesAt(maxLive, maxPending, steps, i, k, f)
    ensures var c, t := SessionAt(maxLive, maxPending, steps, i, k).control,
        SessionAt(maxLive, maxPending, steps, i + 1, k);
            && f in t.seen
            && (Unheard(c, k, f, steps[i]) ==> !Replied(t.control, f))
            && (!Unheard(c, k, f, steps[i]) ==> Reply(f, AnswerOf(steps[i])) in t.control.replies)
  {
    hide Core, Follow, Before, Replied, SessionOk, Unheard;
    var w := Before(maxLive, maxPending, steps, i);
    BeforeNext(maxLive, maxPending, steps, i);
    StepAccounts(w, steps[i], k, f);
    StepSees(w, steps[i], k);
    CoreParts(w, k);
    PendingFacts(w.sessions[k], f, w.claims, w.minted);
  }

  /**
   * In every run, a frame that leaves the pending table has, ever after, exactly one answer, and it is the one its
   * leaving calls for: its deadline tells it so, a claimed result brings its text, and anything else is a refusal.
   * It has none exactly when its connection was dead, or went with it, or the channel closed.
   */
  lemma LeavingFrameIsAnsweredOnce(maxLive: nat, maxPending: nat, steps: seq<Step>, i: nat, k: SessionKey, f: FrameId)
    requires LeavesAt(maxLive, maxPending, steps, i, k, f)
    ensures k in Run(maxLive, maxPending, steps).sessions
    ensures var c := SessionAt(maxLive, maxPending, steps, i, k).control;
            var end := Run(maxLive, maxPending, steps).sessions[k].control;
            && f !in end.pending
            && (c.pending[f] in c.dead || steps[i] == SocketGone(k, c.pending[f]) || steps[i] == ControlCloses(k)
                ==> !Replied(end, f))
            && (c.pending[f] !in c.dead && steps[i] != SocketGone(k, c.pending[f]) && steps[i] != ControlCloses(k)
                ==> exists n: nat :: OnlyReply(end, n, Reply(f, AnswerOf(steps[i]))))
  {
    hide Core, Run, Before, Replied, OnlyReply, AnswersApart;
    LeftIsSettled(maxLive, maxPending, steps, i, k, f);
    SettledForGood(maxLive, maxPending, steps, i + 1, |steps|, k, f);
    AtTheEnd(maxLive, maxPending, steps);
    AnsweredAtMostOnce(maxLive, maxPending, steps);
    var end := Run(maxLive, maxPending, steps).sessions[k].control;
    var t := SessionAt(maxLive, maxPending, steps, i + 1, k).control;
    RepliesStay(maxLive, maxPending, steps, i + 1, |steps|, k);
    if Reply(f, AnswerOf(steps[i])) in t.replies {
      TheOnlyReply(t, end, Reply(f, AnswerOf(steps[i])));
    }
  }

  lemma TheOnlyReply(t: Control, end: Control, reply: Reply)
    requires reply in t.replies && Begins(t.replies, end.replies) && AnswersApart(end)
    ensures exists n: nat :: OnlyReply(end, n, reply)
  {
    var n :| 0 <= n < |t.replies| && t.replies[n] == reply;
    assert end.replies[n] == reply;
    assert OnlyReply(end, n, reply);
  }

  lemma AtTheEnd(maxLive: nat, maxPending: nat, steps: seq<Step>)
    ensures Before(maxLive, maxPending, steps, |steps|) == Run(maxLive, maxPending, steps)
  {
    hide Core, Run;
    assert steps[..|steps|] == steps;
  }

  lemma StepReplies(w: World, step: Step, k: SessionKey)
    requires Core(w) && k in w.sessions
    ensures k in Follow(w, step).sessions
    ensures Begins(w.sessions[k].control.replies, Follow(w, step).sessions[k].control.replies)
  {
    hide Core, MapsValid, Enabled, Follow, NewClaim;
    FollowGrows(w, step);
    if Follow(w, step) != w {
      assert SessionGrows(w.sessions[k], Follow(w, step).sessions[k], k, step);
    }
  }

  lemma {:induction false} RepliesStay(maxLive: nat, maxPending: nat, steps: seq<Step>, i: nat, j: nat, k: SessionKey)
    requires i <= j <= |steps| && HasSession(maxLive, maxPending, steps, i, k)
    ensures HasSession(maxLive, maxPending, steps, j, k)
    ensures Begins(SessionAt(maxLive, maxPending, steps, i, k).control.replies,
                   SessionAt(maxLive, maxPending, steps, j, k).control.replies)
    decreases j
  {
    hide Core, Follow, Before;
    if i < j {
      RepliesStay(maxLive, maxPending, steps, i, j - 1, k);
      BeforeNext(maxLive, maxPending, steps, j - 1);
      StepReplies(Before(maxLive, maxPending, steps, j - 1), steps[j - 1], k);
    }
  }

  /** Step `i` brought frame `f`, and it was turned away on the spot. */
  ghost predicate TurnedAwayAt(maxLive: nat, maxPending: nat, steps: seq<Step>, i: nat, k: SessionKey, f: FrameId) {
    && i < |steps| && steps[i].Frame? && steps[i].key == k && steps[i].frame == f
    && HasSession(maxLive, maxPending, steps, i, k) && HasSession(maxLive, maxPending, steps, i + 1, k)
    && f !in SessionAt(maxLive, maxPending, steps, i, k).seen
    && TurnsAway(SessionAt(maxLive, maxPending, steps, i, k))
    && var t := SessionAt(maxLive, maxPending, steps, i + 1, k);
       f in t.seen && f !in t.control.pending && Reply(f, Refused) in t.control.replies
  }

  /**
   * In every run, a new frame is refused at once exactly when the session turns calls away, and is pending otherwise.
   */
  lemma NewFrameIsDecided(w: World, k: SessionKey, f: FrameId, socket: Socket)
    requires Core(w) && k in w.sessions && f !in w.sessions[k].seen && socket !in w.sessions[k].control.dead
    ensures k in Follow(w, Frame(k, f, socket)).sessions
    ensures var s, t := w.sessions[k], Follow(w, Frame(k, f, socket)).sessions[k];
            && t.seen == s.seen + {f} && t.control.dead == s.control.dead && t.control.closed == s.control.closed
            && (s.gate || (s.handoff != Waiting && s.queue != []) ==>
                  && t.control.replies == s.control.replies + [Reply(f, Refused)]
                  && t.control.pending == s.control.pending && t.handoff == s.handoff && t.queue == s.queue)
            && (!s.gate && (s.handoff == Waiting || s.queue == []) ==>
                  && t.control.replies == s.control.replies
                  && t.control.pending == s.control.pending[f := socket]
                  && t.handoff == (if s.handoff == Waiting then Ready(f) else s.handoff)
                  && t.queue == (if s.handoff == Waiting then s.queue else [f]))
  {
    hide Core, MapsValid, SessionOk, Arrive;
    CoreParts(w, k);
    PendingFacts(w.sessions[k], f, w.claims, w.minted);
    NewIsNotPending(w.sessions[k], f, w.claims, w.minted);
    ArrivalDecides(w.sessions[k], f, socket);
  }

  lemma ArrivalAccounted(maxLive: nat, maxPending: nat, steps: seq<Step>, i: nat, k: SessionKey, f: FrameId)
    requires i < |steps| && HasSession(maxLive, maxPending, steps, i, k)
        && HasSession(maxLive, maxPending, steps, i + 1, k)
    requires f !in SessionAt(maxLive, maxPending, steps, i, k).seen
    requires f in SessionAt(maxLive, maxPending, steps, i + 1, k).seen
    ensures f in SessionAt(maxLive, maxPending, steps, i + 1, k).control.pending
        || TurnedAwayAt(maxLive, maxPending, steps, i, k, f)
  {
    hide Core, MapsValid, Follow, Before, SessionOk;
    var w := Before(maxLive, maxPending, steps, i);
    BeforeNext(maxLive, maxPending, steps, i);
    StepSees(w, steps[i], k);
    NewFrameIsDecided(w, k, f, steps[i].socket);
    CoreParts(w, k);
    PendingFacts(w.sessions[k], f, w.claims, w.minted);
    NewIsNotPending(w.sessions[k], f, w.claims, w.minted);
    if TurnsAway(w.sessions[k]) {
      assert Follow(w, steps[i]).sessions[k].control.replies[|w.sessions[k].control.replies|] == Reply(f, Refused);
    }
  }

  /** A frame the session has seen is pending, or was turned away, or has left. */
  lemma {:induction false} SeenIsAccounted(maxLive: nat, maxPending: nat, steps: seq<Step>, n: nat, k: SessionKey,
      f: FrameId)
    requires n <= |steps| && HasSession(maxLive, maxPending, steps, n, k)
    requires f in SessionAt(maxLive, maxPending, steps, n, k).seen
    ensures f in SessionAt(maxLive, maxPending, steps, n, k).control.pending
        || (exists i: nat :: TurnedAwayAt(maxLive, maxPending, steps, i, k, f)
                             || LeavesAt(maxLive, maxPending, steps, i, k, f))
    decreases n
  {
    hide Core, Follow, Before, TurnedAwayAt;
    if n == 0 {
      StartHasNone(maxLive, maxPending, steps, k);
    } else if HasSession(maxLive, maxPending, steps, n - 1, k) {
      if f in SessionAt(maxLive, maxPending, steps, n - 1, k).seen {
        SeenIsAccounted(maxLive, maxPending, steps, n - 1, k, f);
        if f in SessionAt(maxLive, maxPending, steps, n - 1, k).control.pending
           && f !in SessionAt(maxLive, maxPending, steps, n, k).control.pending {
          assert LeavesAt(maxLive, maxPending, steps, n - 1, k, f);
        }
      } else {
        ArrivalAccounted(maxLive, maxPending, steps, n - 1, k, f);
      }
    } else {
      NewHasSeenNothing(maxLive, maxPending, steps, n - 1, k);
    }
  }

  lemma StartHasNone(maxLive: nat, maxPending: nat, steps: seq<Step>, k: SessionKey)
    ensures !HasSession(maxLive, maxPending, steps, 0, k)
  {
    hide Core, Follow;
    assert steps[..0] == [];
  }

  lemma NewHasSeenNothing(maxLive: nat, maxPending: nat, steps: seq<Step>, i: nat, k: SessionKey)
    requires i < |steps| && !HasSession(maxLive, maxPending, steps, i, k)
        && HasSession(maxLive, maxPending, steps, i + 1, k)
    ensures SessionAt(maxLive, maxPending, steps, i + 1, k).seen == {}
  {
    hide Core, Before, MapsValid;
    BeforeNext(maxLive, maxPending, steps, i);
    CoreMaps(Before(maxLive, maxPending, steps, i));
    OpenedSees(Before(maxLive, maxPending, steps, i), steps[i], k);
  }

  lemma OpenedSees(w: World, step: Step, k: SessionKey)
    requires MapsValid(w.sh.broker) && k !in w.sessions && k in Next(w, step).sessions
    ensures Next(w, step).sessions[k].seen == {}
  {
    hide MapsValid, Arrive, Close, Release, DropSocket, CloseControl, Loop, Resume, Fail, Create, CancelScope,
        ClaimByPublicId, Continue, ContinueForeign;
  }

  /**
   * In every run, a frame that a session has seen and no longer holds pending has an answer, exactly one, unless it
   * left when nobody was there to be told; then it never gets one. A pending frame has none yet.
   */
  lemma EveryFrameIsAccountedFor(maxLive: nat, maxPending: nat, steps: seq<Step>, k: SessionKey, f: FrameId)
    requires k in Run(maxLive, maxPending, steps).sessions && f in Run(maxLive, maxPending, steps).sessions[k].seen
    ensures var c := Run(maxLive, maxPending, steps).sessions[k].control;
            && AnswersApart(c)
            && (f in c.pending ==> !Replied(c, f))
            && (f !in c.pending ==>
                  (Replied(c, f) <==> !(exists i: nat :: LostAt(maxLive, maxPending, steps, i, k, f))))
  {
    hide Core, Run, Before, Replied, AnswersApart, SessionOk, TurnedAwayAt, LeavesAt;
    var w := Run(maxLive, maxPending, steps);
    var c := w.sessions[k].control;
    AtTheEnd(maxLive, maxPending, steps);
    AnsweredAtMostOnce(maxLive, maxPending, steps);
    CoreParts(w, k);
    PendingFacts(w.sessions[k], f, w.claims, w.minted);
    if f !in c.pending {
      if i: nat :| LostAt(maxLive, maxPending, steps, i, k, f) {
        LeavingFrameIsAnsweredOnce(maxLive, maxPending, steps, i, k, f);
      } else {
        SeenIsAccounted(maxLive, maxPending, steps, |steps|, k, f);
        var i: nat :| TurnedAwayAt(maxLive, maxPending, steps, i, k, f)
            || LeavesAt(maxLive, maxPending, steps, i, k, f);
        SettledHasReply(maxLive, maxPending, steps, i, k, f);
      }
    }
  }

  lemma SettledHasReply(maxLive: nat, maxPending: nat, steps: seq<Step>, i: nat, k: SessionKey, f: FrameId)
    requires || TurnedAwayAt(maxLive, maxPending, steps, i, k, f)
             || (LeavesAt(maxLive, maxPending, steps, i, k, f) && !LostAt(maxLive, maxPending, steps, i, k, f))
    ensures k in Run(maxLive, maxPending, steps).sessions
    ensures Replied(Run(maxLive, maxPending, steps).sessions[k].control, f)
  {
    hide Core, Run, Before;
    AtTheEnd(maxLive, maxPending, steps);
    if TurnedAwayAt(maxLive, maxPending, steps, i, k, f) {
      RepliesStay(maxLive, maxPending, steps, i + 1, |steps|, k);
      var t, end := SessionAt(maxLive, maxPending, steps, i + 1, k).control,
          Run(maxLive, maxPending, steps).sessions[k].control;
      var n :| 0 <= n < |t.replies| && t.replies[n] == Reply(f, Refused);
      assert end.replies[n].frame == f;
    } else {
      LeavingFrameIsAnsweredOnce(maxLive, maxPending, steps, i, k, f);
    }
  }

  // ---- the three doors, on the fields ----

  /** One frame of a channel leaves with this answer, and nothing else about the channel changes. */
  ghost predicate OneAnswer(c: Control, d: Control, f: FrameId, body: Body) {
    && d.pending == c.pending - {f} && d.dead == c.dead && d.closed == c.closed
    && d.replies == if f in c.pending && c.pending[f] !in c.dead then c.replies + [Reply(f, body)] else c.replies
  }

  /** A frame's own deadline tells the bridge process so, and changes nothing else about the session. */
  lemma DeadlineIsAnswered(w: World, k: SessionKey, f: FrameId)
    requires Core(w) && k in w.sessions
    ensures k in Follow(w, FrameTtl(k, f)).sessions
    ensures var s, t := w.sessions[k], Follow(w, FrameTtl(k, f)).sessions[k];
            && OneAnswer(s.control, t.control, f, Expiry) && t == s.(control := t.control)
  {
    hide Core, MapsValid, Release;
    CoreMaps(w);
    SettledFrame(w.sessions[k].control, f, Expiry);
  }

  /** A claim under the session's profile brings its text to the frame that was parked under that id. */
  lemma ClaimedTextIsWritten(w: World, k: SessionKey, f: FrameId, rid: string, pid: string, profile: Profile,
      text: string)
    requires Core(w) && Claimable(w, k, f, pid) && profile == w.sessions[k].profile && rid !in w.used
    ensures var step := ClaimResult(rid, pid, profile, text);
            && k in Follow(w, step).sessions
            && OneAnswer(w.sessions[k].control, Follow(w, step).sessions[k].control, f, Text(text))
  {
    hide Core, Valid, MapsValid, EntriesOk, SessionOk, Continue, ClaimByPublicId, OneAnswer;
    CoreParts(w, k);
    ClaimNamesItsSession(w, pid, k);
    BrokerRuns.ClaimIsExact(w.sh.broker, pid, Some(profile));
    ContinueWrites(w.sh.(broker := ClaimByPublicId(w.sh.broker, pid, Some(profile)).0), k, w.sessions[k], f, pid, rid,
        text);
  }

  lemma ContinueWrites(sh: Shared, k: SessionKey, s: Session, f: FrameId, pid: string, rid: string, text: string)
    requires s.parked == Some(f)
    ensures OneAnswer(s.control, Continue(sh, k, s, pid, rid, text).1.control, f, Text(text))
  {
    hide Release;
    SettledFrame(s.control, f, Text(text));
  }

  /** A step that closes the session: its own deadline, or the cancelling of the request it serves. */
  predicate ClosesSession(w: World, step: Step, k: SessionKey) {
    || step == SessionTtl(k)
    || (step.CancelRequest? && step.rid in w.sh.byRequest && w.sh.byRequest[step.rid] == k)
  }

  /** The session is terminated and holds nothing, and the call it had parked, if any, is refused. */
  ghost predicate ClosedWith(w: World, w': World, k: SessionKey) {
    && k in w.sessions && k in w'.sessions
    && var s, t := w.sessions[k], w'.sessions[k];
       && t == s.(terminated := true, ttl := false, parked := None, publicId := None, control := t.control)
       && (s.parked.Some? ==> OneAnswer(s.control, t.control, s.parked.value, Refused))
       && (s.parked.None? ==> t.control == s.control)
  }

  /** A session that is cancelled or runs into its deadline refuses the call it had parked, and is terminated. */
  lemma ClosingRefusesTheParkedCall(w: World, k: SessionKey, step: Step)
    requires Core(w) && Enabled(w, step) && ClosesSession(w, step, k)
    requires k in w.sessions && !w.sessions[k].terminated
    ensures ClosedWith(w, Follow(w, step), k)
  {
    hide Core, MapsValid, Close, ClosedWith;
    CoreMaps(w);
    CloseRefuses(w, k);
  }

  lemma CloseRefuses(w: World, k: SessionKey)
    requires MapsValid(w.sh.broker) && k in w.sessions && !w.sessions[k].terminated
    ensures ClosedWith(w, CloseAt(w, k, w.sessions[k]), k)
  {
    hide MapsValid, Release, CancelScope;
    if w.sessions[k].parked.Some? {
      SettledFrame(w.sessions[k].control, w.sessions[k].parked.value, Refused);
    }
  }

  // ---- what a call that is handed off comes to ----

  /** An entry under the key a session parks its calls under is that session's parked call. */
  lemma OwnKeyIsParked(w: World, k: SessionKey, pid: string)
    requires Valid(w.sh.broker) && EntriesOk(w) && k in w.sessions && '|' !in k
    requires Compose(w.sessions[k].profile, Claude, k, "", pid) in w.sh.broker.entries.items
    ensures w.sessions[k].publicId.Some?
  {
    hide Compose, SplitScope;
    var profile := w.sessions[k].profile;
    var id := Compose(profile, Claude, k, "", pid);
    var e := w.sh.broker.entries.items[id];
    BrokersKey(w.sh.broker, id);
    hide Valid;
    var turn, tool :| id == Compose(e.profile, e.provider, e.sessionId, turn, tool);
    ScopeIsRecovered(profile, Claude, k, "", pid);
    ScopeIsRecovered(e.profile, e.provider, e.sessionId, turn, tool);
    NamesHoldNoSeparator(e.profile, e.provider);
    assert e.provider == Claude;
    assert EntryOk(w, id, e);
    var p :| IndexedAs(w, id, p, e);
  }

  lemma BrokersKey(b: State<Owner>, id: string)
    requires Valid(b) && id in b.entries.items
    ensures KeyedBy(id, b.entries.items[id].profile, b.entries.items[id].provider, b.entries.items[id].sessionId)
  {
    hide MapsValid, WindowOf, Balanced, PromisesKept, KeyedBy;
  }

  lemma ResumingFacts(w: World, k: SessionKey, pid: string)
    requires Core(w) && Enabled(w, ResumeCall(k, pid))
    ensures Valid(w.sh.broker) && MapsValid(w.sh.broker) && EntriesOk(w) && DrainOk(w.sessions[k])
    ensures w.sessions[k].publicId == None && w.sessions[k].parked == None
    ensures k != "" && '|' !in k && pid !in w.sh.broker.publicIndex.items && pid != ""
    ensures Compose(w.sessions[k].profile, Claude, k, "", pid) !in w.sh.broker.entries.items
  {
    hide Core, MapsValid, Valid, EntriesOk, ControlOk, TextsClaimed, FramesOk, PublicOk, ParkedApart, SessionsOk,
        Compose;
    CoreParts(w, k);
    CoreIds(w);
    if Compose(w.sessions[k].profile, Claude, k, "", pid) in w.sh.broker.entries.items {
      OwnKeyIsParked(w, k, pid);
    }
  }

  /** There is room for the call, in the session, in the map of parked sessions and in the shared broker. */
  ghost predicate Room(w: World, k: SessionKey, pid: string) {
    && k in w.sessions && !w.sessions[k].gate && |w.sh.byPublic| < w.sh.maxLive
    && |w.sh.broker.entries.items| < w.sh.broker.maxPending && pid !in w.sh.broker.publicTerminal.items
  }

  lemma ParksExactly(w: World, k: SessionKey, pid: string)
    requires Core(w) && Enabled(w, ResumeCall(k, pid)) && MapsValid(w.sh.broker)
    ensures Parks(w.sh, k, w.sessions[k], pid) <==> Room(w, k, pid)
  {
    hide Core, MapsValid, Valid, EntriesOk, DrainOk, Compose, Parks, Room;
    ResumingFacts(w, k, pid);
    AcceptedExactly(w, k, pid);
  }

  lemma AcceptedExactly(w: World, k: SessionKey, pid: string)
    requires Valid(w.sh.broker) && MapsValid(w.sh.broker) && k in w.sessions
    requires k != "" && pid != "" && pid !in w.sh.broker.publicIndex.items
    requires Compose(w.sessions[k].profile, Claude, k, "", pid) !in w.sh.broker.entries.items
    ensures Parks(w.sh, k, w.sessions[k], pid) <==> Room(w, k, pid)
  {
    hide MapsValid, Valid, Create, Compose;
    BrokerRuns.CreationIsRefusedExactly(w.sh.broker, KeyFor(k, w.sessions[k], pid), Some(ClaudeSession(k)), false);
  }

  /** The call handed to session `k` is parked: shut gate, running deadline, and live in the broker under `pid`. */
  ghost predicate CallParked(w: World, w': World, k: SessionKey, pid: string) {
    && k in w.sessions && w.sessions[k].handoff.Ready? && k in w'.sessions
    && var s := w.sessions[k];
    && w'.sessions[k] == s.(handoff := NoPromise, drain := Idle, gate := true, parked := Some(s.handoff.frame),
                            publicId := Some(pid), ttl := true, parkedAs := s.parkedAs[s.handoff.frame := pid])
    && w'.sh.byPublic == w.sh.byPublic[pid := k]
    && pid in w'.sh.broker.publicIndex.items
    && w'.sh.broker.publicIndex.items[pid] in w'.sh.broker.entries.items
    && w'.sh.broker.entries.items[w'.sh.broker.publicIndex.items[pid]]
         == Entry(s.profile, Claude, k, Some(ClaudeSession(k)), [])
  }

  /** The call handed to session `k` is refused, and the session with it. */
  ghost predicate CallRefused(w: World, w': World, k: SessionKey) {
    && k in w.sessions && w.sessions[k].handoff.Ready? && k in w'.sessions
    && var s, t := w.sessions[k], w'.sessions[k];
    && t.terminated && t.parked == None && t.publicId == None && t.drain == Idle
    && OneAnswer(s.control, t.control, s.handoff.frame, Refused)
  }

  /**
   * The drain resumes on a call it was handed. It is parked exactly when the gate is open and there is room for it:
   * then the gate shuts, the deadline starts, and the call is live in the broker under its fresh public id, for this
   * session's profile. Otherwise the frame is refused and the session terminated.
   */
  lemma HandedCallIsDecided(w: World, k: SessionKey, pid: string)
    requires Core(w) && Enabled(w, ResumeCall(k, pid))
    ensures var w' := Follow(w, ResumeCall(k, pid));
            && (Room(w, k, pid) ==> CallParked(w, w', k, pid))
            && (!Room(w, k, pid) ==> CallRefused(w, w', k))
  {
    hide Core, MapsValid, Valid, EntriesOk, DrainOk, Parks, Room, Resume, CallParked, CallRefused, Compose;
    ResumingFacts(w, k, pid);
    ParksExactly(w, k, pid);
    if Room(w, k, pid) {
      AcceptedCallIsParked(w, k, pid);
    } else {
      RefusedCallIsAnswered(w, k, pid);
    }
  }

  lemma AcceptedCallIsParked(w: World, k: SessionKey, pid: string)
    requires MapsValid(w.sh.broker) && Valid(w.sh.broker) && Enabled(w, ResumeCall(k, pid))
    requires Parks(w.sh, k, w.sessions[k], pid)
    ensures CallParked(w, After(w, ResumeCall(k, pid)), k, pid)
  {
    hide MapsValid, Valid, Create, Parks, Resume, KeyOf;
    ParkAccepts(w.sh, k, w.sessions[k], pid);
    BrokerRuns.CreateEffect(w.sh.broker, KeyFor(k, w.sessions[k], pid), Some(ClaudeSession(k)));
  }

  lemma RefusedCallIsAnswered(w: World, k: SessionKey, pid: string)
    requires MapsValid(w.sh.broker) && Valid(w.sh.broker) && Enabled(w, ResumeCall(k, pid))
    requires DrainOk(w.sessions[k]) && w.sessions[k].parked == None && w.sessions[k].publicId == None
    requires !Parks(w.sh, k, w.sessions[k], pid)
    ensures CallRefused(w, After(w, ResumeCall(k, pid)), k)
  {
    hide MapsValid, Valid, Create, Parks, Resume, Release, CancelScope;
    ParkRefuses(w.sh, k, w.sessions[k], pid);
    SettledFrame(w.sessions[k].control, w.sessions[k].handoff.frame, Refused);
  }
}
