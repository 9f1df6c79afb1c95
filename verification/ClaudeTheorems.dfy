/**
 * Every step keeps the core invariant of all sessions together with the shared maps and the broker,
 * and it keeps terminated sessions unreferenced exactly when it is not a late park. This module
 * treats the claim of a result, the opening and returning of a request and the events of one
 * session, and joins them with the steps treated elsewhere into one statement about every step.
 */
module ClaudeTheorems {
  import opened Options
  import opened BrokerKeys
  import opened BrokerSpec
  import opened BrokerRuns
  import opened BrokerShrinking
  import opened ClaudeSpec
  import opened ClaudeWorld
  import opened ClaudeSessionProofs
  import opened ClaudeProofs
  import opened ClaudeRuns

  // ---- claiming ----

  /** The world right after this adapter's claim of `pid` was resolved for the session `key`. */
  ghost predicate ContinuedInto(w: World, w': World, key: SessionKey, t: Session, rid: string, pid: string,
                                profile: Profile, text: string) {
    && key in w.sessions && w.sessions[key].publicId == Some(pid)
    && w' == w.(sh := w'.sh, sessions := w.sessions[key := t], used := w.used + {rid},
        claims := w.claims[pid := (profile, text)])
    && w'.sh == w.sh.(broker := w'.sh.broker, byPublic := w.sh.byPublic - {pid},
                      byRequest := (w.sh.byRequest - {w.sessions[key].requestId})[rid := key])
    && t.publicId == None && t.requestId == rid && t.profile == w.sessions[key].profile
    && t.parkedAs == w.sessions[key].parkedAs && t.terminated == w.sessions[key].terminated
  }

  lemma ContinuedEntriesOk(w: World, w': World, key: SessionKey, t: Session, rid: string, pid: string,
                           profile: Profile, text: string)
    requires EntriesOk(w) && ContinuedInto(w, w', key, t, rid, pid, profile, text) && Shrunk(w.sh.broker, w'.sh.broker)
    requires pid !in w'.sh.broker.publicIndex.items
    ensures EntriesOk(w')
  {
    hide Valid;
    forall x | x in w'.sh.broker.entries.items ensures EntryOk(w', x, w'.sh.broker.entries.items[x]) {
      var e := w.sh.broker.entries.items[x];
      assert EntryOk(w, x, e);
      if e.provider == Claude {
        var p :| IndexedAs(w, x, p, e);
        assert p in w'.sh.broker.publicIndex.items && p != pid;
        assert IndexedAs(w', x, p, e);
      }
    }
  }

  lemma ContinuedRequestOk(byRequest: map<string, SessionKey>, sessions: map<SessionKey, Session>, key: SessionKey,
      t: Session, rid: string)
    requires RequestOk(byRequest, sessions) && key in sessions && t.requestId == rid
    ensures RequestOk((byRequest - {sessions[key].requestId})[rid := key], sessions[key := t])
  {
  }

  lemma MoreClaims(s: Session, claims: map<string, (Profile, string)>, minted: set<string>, pid: string,
      c: (Profile, string))
    requires SessionOk(s, claims, minted) && pid !in claims
    ensures SessionOk(s, claims[pid := c], minted)
  {
    hide ControlOk, DrainOk, FramesOk;
    forall i | 0 <= i < |s.control.replies| && s.control.replies[i].body.Text?
      ensures TextClaimed(s, claims[pid := c], s.control.replies[i])
    {
      assert TextClaimed(s, claims, s.control.replies[i]);
    }
  }

  lemma ContinuedIdsOk(a: State<Owner>, b: State<Owner>, minted: set<string>, claims: map<string, (Profile, string)>,
      pid: string, c: (Profile, string))
    requires IdsOk(a.publicIndex.items, minted, claims) && Shrunk(a, b)
    requires pid in a.publicIndex.items && pid !in b.publicIndex.items
    ensures IdsOk(b.publicIndex.items, minted, claims[pid := c])
  {
    hide Valid;
  }

  lemma ContinuedRetired(w: World, w': World, key: SessionKey, t: Session, rid: string, pid: string,
      profile: Profile, text: string)
    requires ContinuedInto(w, w', key, t, rid, pid, profile, text) && Shrunk(w.sh.broker, w'.sh.broker)
    requires TerminatedAreRetired(w)
    ensures TerminatedAreRetired(w')
  {
    hide Valid;
    assert w.sessions[key].publicId != None;
    forall k | k in w'.sessions && w'.sessions[k].terminated ensures Retired(k, w'.sessions[k], w'.sh) {
      assert Retired(k, w.sessions[k], w.sh);
    }
  }

  lemma ContinuedMaps(w: World, w': World, key: SessionKey, t: Session, rid: string, pid: string,
      profile: Profile, text: string)
    requires ContinuedInto(w, w', key, t, rid, pid, profile, text)
    requires PublicOk(w.sh.byPublic, w.sessions) && RequestOk(w.sh.byRequest, w.sessions) && ParkedApart(w.sessions)
    requires KeysOk(w.sessions, w.used)
    ensures PublicOk(w'.sh.byPublic, w'.sessions) && |w'.sh.byPublic| <= |w.sh.byPublic|
    ensures RequestOk(w'.sh.byRequest, w'.sessions) && ParkedApart(w'.sessions) && KeysOk(w'.sessions, w'.used)
    ensures w'.sh.maxLive == w.sh.maxLive
  {
    hide PublicOk, RequestOk, ParkedApart;
    ClosedPublicOk(w.sh.byPublic, w.sessions, key, t);
    ByPublicShrinks(w.sh.byPublic, w.sessions[key].publicId);
    ContinuedRequestOk(w.sh.byRequest, w.sessions, key, t, rid);
    ApartWhenTapeStays(w.sessions, key, t);
  }

  lemma ContinuedSessionsOk(sessions: map<SessionKey, Session>, key: SessionKey, t: Session, minted: set<string>,
                            claims: map<string, (Profile, string)>, pid: string, c: (Profile, string))
    requires SessionsOk(sessions, claims, minted) && pid !in claims && SessionOk(t, claims[pid := c], minted)
    ensures SessionsOk(sessions[key := t], claims[pid := c], minted)
  {
    hide SessionOk;
    var sessions' := sessions[key := t];
    forall k | k in sessions' ensures SessionOk(sessions'[k], claims[pid := c], minted) {
      if k != key {
        MoreClaims(sessions[k], claims, minted, pid, c);
      }
    }
  }

  lemma LiveNotClaimed(index: map<string, string>, minted: set<string>,
      claims: map<string, (Profile, string)>, pid: string)
    requires IdsOk(index, minted, claims) && pid in index
    ensures pid !in claims && pid in minted
  {
  }

  lemma ContinuedParts(w: World, w': World, key: SessionKey, t: Session, rid: string, pid: string,
      profile: Profile, text: string)
    requires ContinuedInto(w, w', key, t, rid, pid, profile, text)
    ensures w'.sessions == w.sessions[key := t] && w'.minted == w.minted
        && w'.claims == w.claims[pid := (profile, text)]
    ensures w'.sh.byPublic.Keys <= w.sh.byPublic.Keys
  {
  }

  lemma ContinuingKeeps(w: World, w': World, key: SessionKey, t: Session, rid: string, pid: string,
      profile: Profile, text: string)
    requires Core(w) && ContinuedInto(w, w', key, t, rid, pid, profile, text) && Shrunk(w.sh.broker, w'.sh.broker)
    requires pid in w.sh.broker.publicIndex.items && pid !in w'.sh.broker.publicIndex.items
    requires SessionOk(t, w'.claims, w.minted)
    ensures Core(w')
    ensures TerminatedAreRetired(w) ==> TerminatedAreRetired(w')
  {
    hide Valid, EntriesOk, SessionsOk, SessionOk, PublicOk, ForeignApart, RequestOk, ParkedApart, KeysOk,
        TerminatedAreRetired, Shrunk, IdsOk,
      ContinuedInto;
    ContinuedParts(w, w', key, t, rid, pid, profile, text);
    ApartShrinks(w.sh.broker, w'.sh.broker, w.sh.byPublic, w'.sh.byPublic);
    LiveNotClaimed(w.sh.broker.publicIndex.items, w.minted, w.claims, pid);
    ShrunkIsValid(w.sh.broker, w'.sh.broker);
    ContinuedEntriesOk(w, w', key, t, rid, pid, profile, text);
    ContinuedMaps(w, w', key, t, rid, pid, profile, text);
    ContinuedIdsOk(w.sh.broker, w'.sh.broker, w.minted, w.claims, pid, (profile, text));
    ContinuedSessionsOk(w.sessions, key, t, w.minted, w.claims, pid, (profile, text));
    if TerminatedAreRetired(w) {
      ContinuedRetired(w, w', key, t, rid, pid, profile, text);
    }
  }

  /** A resolved claim names a session that parked a call under that id and belongs to that profile. */
  lemma ClaimNamesItsSession(w: World, pid: string, key: SessionKey)
    requires EntriesOk(w) && Valid(w.sh.broker) && pid in w.sh.broker.publicIndex.items
    requires w.sh.broker.publicIndex.items[pid] in w.sh.broker.entries.items
    requires w.sh.broker.entries.items[w.sh.broker.publicIndex.items[pid]].context == Some(ClaudeSession(key))
    ensures key in w.sessions && w.sessions[key].publicId == Some(pid)
    ensures w.sessions[key].profile == w.sh.broker.entries.items[w.sh.broker.publicIndex.items[pid]].profile
  {
    ValidIndex(w.sh.broker);
    hide Valid;
    var id := w.sh.broker.publicIndex.items[pid];
    var e := w.sh.broker.entries.items[id];
    assert EntryOk(w, id, e);
    var p :| IndexedAs(w, id, p, e);
    assert p == pid;
  }

  lemma ContinueShape(w: World, b: State<Owner>, key: SessionKey, rid: string, pid: string,
      profile: Profile, text: string)
    requires key in w.sessions && w.sessions[key].publicId == Some(pid) && w.sessions[key].profile == profile
    requires SessionOk(w.sessions[key], w.claims, w.minted) && pid !in w.claims && pid in w.minted
    ensures var w1 := w.(sh := w.sh.(broker := b));
            var w' := With(w1, key, Continue(w1.sh, key, w.sessions[key], pid, rid, text))
                        .(used := w.used + {rid}, claims := w.claims[pid := (profile, text)]);
            && key in w'.sessions
            && ContinuedInto(w, w', key, w'.sessions[key], rid, pid, profile, text)
            && w'.sh.broker == b
            && SessionOk(w'.sessions[key], w'.claims, w.minted)
  {
    hide SessionOk, Release;
    ContinuedOk(w.sh.(broker := b), key, w.sessions[key], pid, rid, profile, text, w.claims, w.minted);
  }

  lemma ClaimStepKeeps(w: World, rid: string, pid: string, profile: Profile, text: string)
    requires Core(w) && MapsValid(w.sh.broker)
    ensures Core(AfterClaim(w, rid, pid, profile, text))
    ensures TerminatedAreRetired(w) ==> TerminatedAreRetired(AfterClaim(w, rid, pid, profile, text))
  {
    CoreParts(w, "");
    assert IdsOk(w.sh.broker.publicIndex.items, w.minted, w.claims);
    hide Core, Valid, MapsValid, EntriesOk, TerminatedAreRetired, SessionOk, Shrunk, ClaimByPublicId, Continue,
        ContinueForeign, ContinuedInto;
    var (b, claim) := ClaimByPublicId(w.sh.broker, pid, Some(profile));
    ValidIndex(w.sh.broker);
    ClaimIsExact(w.sh.broker, pid, Some(profile));
    ClaimShrinks(w.sh.broker, pid, Some(profile));
    if claim.outcome != OutResolved || claim.context == None {
      BrokerShrinks(w, b);
    } else if claim.context.value.ClaudeSession? && claim.context.value.key in w.sessions {
      var key := claim.context.value.key;
      ClaimNamesItsSession(w, pid, key);
      CoreParts(w, key);
      ContinueShape(w, b, key, rid, pid, profile, text);
      var w' := AfterClaim(w, rid, pid, profile, text);
      ContinuingKeeps(w, w', key, w'.sessions[key], rid, pid, profile, text);
    } else {
      ForeignIsNotOurs(w, pid);
      ForeignKeeps(w, b, rid, pid);
    }
  }

  /** A live call whose context is no live session here is another adapter's, and its id is not in the public map. */
  lemma ForeignIsNotOurs(w: World, pid: string)
    requires Core(w) && pid in w.sh.broker.publicIndex.items
    requires w.sh.broker.publicIndex.items[pid] in w.sh.broker.entries.items
    ensures var e := w.sh.broker.entries.items[w.sh.broker.publicIndex.items[pid]];
            if e.provider == Claude
                then e.context.Some? && e.context.value.ClaudeSession? && e.context.value.key in w.sessions
            else e.context == Some(OtherAdapter) && pid !in w.sh.byPublic
  {
    hide Valid, PublicOk, RequestOk, IdsOk, ParkedApart, KeysOk, SessionsOk;
    var id := w.sh.broker.publicIndex.items[pid];
    assert EntryOk(w, id, w.sh.broker.entries.items[id]);
  }

  lemma ForeignKeeps(w: World, b: State<Owner>, rid: string, pid: string)
    requires Core(w) && Shrunk(w.sh.broker, b) && MapsValid(b) && pid !in w.sh.byPublic
    ensures var w' := w.(sh := ContinueForeign(w.sh.(broker := b), pid, rid), used := w.used + {rid});
            Core(w') && (TerminatedAreRetired(w) ==> TerminatedAreRetired(w'))
  {
    hide Core, Valid, MapsValid, TerminatedAreRetired, Shrunk, CancelScope;
    ShrunkIsValid(w.sh.broker, b);
    var w1 := WithBroker(w, b);
    BrokerShrinks(w, b);
    CancelShrinks(b, EveryClaude());
    var w2 := WithBroker(w1, CancelScope(b, EveryClaude()));
    BrokerShrinks(w1, CancelScope(b, EveryClaude()));
    var w3 := w2.(sh := w2.sh.(byRequest := w2.sh.byRequest - {rid}));
    RunReturnsKeeps(w2, rid);
    SpentKeeps(w3, rid);
    assert w.sh.byPublic - {pid} == w.sh.byPublic;
  }

  lemma SpentKeeps(w: World, rid: string)
    requires Core(w)
    ensures var w' := w.(used := w.used + {rid});
            Core(w') && (TerminatedAreRetired(w) ==> TerminatedAreRetired(w'))
  {
    hide Valid, EntriesOk, PublicOk, ForeignApart, RequestOk, ParkedApart, IdsOk, SessionsOk, Retired;
    SpendingKeepsEntries(w, w.(used := w.used + {rid}));
  }

  // ---- opening and returning ----

  lemma OpenEntriesOk(w: World, rid: string, s: Session, w': World)
    requires EntriesOk(w) && rid !in w.sessions
    requires w'.sh.broker == w.sh.broker && w'.sessions == w.sessions[rid := s]
    ensures EntriesOk(w')
  {
    forall id | id in w.sh.broker.entries.items ensures EntryOk(w', id, w.sh.broker.entries.items[id]) {
      var e := w.sh.broker.entries.items[id];
      assert EntryOk(w, id, e);
      if e.provider == Claude {
        var p :| IndexedAs(w, id, p, e);
        assert IndexedAs(w', id, p, e);
      }
    }
  }

  lemma OpenMapsOk(byPublic: map<string, SessionKey>, byRequest: map<string, SessionKey>,
      sessions: map<SessionKey, Session>, rid: string, s: Session)
    requires PublicOk(byPublic, sessions) && RequestOk(byRequest, sessions) && ParkedApart(sessions) && rid !in sessions
    requires s.publicId == None && s.requestId == rid && s.parkedAs == map[]
    ensures PublicOk(byPublic, sessions[rid := s]) && RequestOk(byRequest[rid := rid], sessions[rid := s])
    ensures ParkedApart(sessions[rid := s])
  {
  }

  lemma NewSessionOk(rid: string, profile: Profile, claims: map<string, (Profile, string)>, minted: set<string>)
    ensures SessionOk(NewSession(rid, profile), claims, minted)
  {
  }

  lemma OpenRetired(w: World, rid: string, s: Session, w': World)
    requires TerminatedAreRetired(w) && rid !in w.sessions && !s.terminated
    requires w' == w.(sessions := w.sessions[rid := s], sh := w.sh.(byRequest := w.sh.byRequest[rid := rid]),
        used := w'.used)
    ensures TerminatedAreRetired(w')
  {
    hide NoEntryFor;
    forall k | k in w'.sessions && w'.sessions[k].terminated ensures Retired(k, w'.sessions[k], w'.sh) {
      assert Retired(k, w.sessions[k], w.sh);
    }
  }

  lemma OpenSessionsOk(w: World, rid: string, s: Session)
    requires SessionsOk(w.sessions, w.claims, w.minted) && SessionOk(s, w.claims, w.minted)
    requires KeysOk(w.sessions, w.used) && rid != "" && '|' !in rid
    ensures SessionsOk(w.sessions[rid := s], w.claims, w.minted) && KeysOk(w.sessions[rid := s], w.used + {rid})
  {
    hide SessionOk;
  }

  lemma UnusedIsNoSession(sessions: map<SessionKey, Session>, used: set<string>, rid: string)
    requires KeysOk(sessions, used) && rid !in used
    ensures rid !in sessions
  {
  }

  lemma OpenKeeps(w: World, rid: string, profile: Profile)
    requires Core(w) && MapsValid(w.sh.broker) && Enabled(w, Open(rid, profile))
    ensures Core(After(w, Open(rid, profile)))
    ensures TerminatedAreRetired(w) ==> TerminatedAreRetired(After(w, Open(rid, profile)))
  {
    hide Valid, MapsValid, EntriesOk, PublicOk, ForeignApart, RequestOk, ParkedApart, IdsOk, TerminatedAreRetired,
        SessionsOk, SessionOk, KeysOk;
    var s := NewSession(rid, profile);
    var w' := After(w, Open(rid, profile));
    UnusedIsNoSession(w.sessions, w.used, rid);
    NewSessionOk(rid, profile, w.claims, w.minted);
    OpenEntriesOk(w, rid, s, w');
    OpenMapsOk(w.sh.byPublic, w.sh.byRequest, w.sessions, rid, s);
    OpenSessionsOk(w, rid, s);
    if TerminatedAreRetired(w) {
      OpenRetired(w, rid, s, w');
    }
  }

  lemma ReturnedRetired(w: World, w': World, rid: string)
    requires TerminatedAreRetired(w) && w' == w.(sh := w.sh.(byRequest := w.sh.byRequest - {rid}))
    ensures TerminatedAreRetired(w')
  {
    hide NoEntryFor;
    forall k | k in w'.sessions && w'.sessions[k].terminated ensures Retired(k, w'.sessions[k], w'.sh) {
      assert Retired(k, w.sessions[k], w.sh);
    }
  }

  lemma ReturnedRequestOk(byRequest: map<string, SessionKey>, sessions: map<SessionKey, Session>, rid: string)
    requires RequestOk(byRequest, sessions)
    ensures RequestOk(byRequest - {rid}, sessions)
  {
  }

  lemma RunReturnsKeeps(w: World, rid: string)
    requires Core(w)
    ensures var w' := w.(sh := w.sh.(byRequest := w.sh.byRequest - {rid}));
            Core(w') && (TerminatedAreRetired(w) ==> TerminatedAreRetired(w'))
  {
    hide Valid, EntriesOk, PublicOk, ForeignApart, RequestOk, ParkedApart, IdsOk, TerminatedAreRetired,
        SessionsOk, KeysOk;
    var w' := w.(sh := w.sh.(byRequest := w.sh.byRequest - {rid}));
    SpendingKeepsEntries(w, w');
    ReturnedRequestOk(w.sh.byRequest, w.sessions, rid);
    if TerminatedAreRetired(w) {
      ReturnedRetired(w, w', rid);
    }
  }

  // ---- every step ----

  /** A session event, then closing: what `DrainEnds` and a lost socket do. */
  lemma ThenCloseKeeps(w: World, key: SessionKey, t: Session)
    requires Core(w) && MapsValid(w.sh.broker) && key in w.sessions
    requires SameIdentity(w.sessions[key], t) && SessionOk(t, w.claims, w.minted)
    ensures Core(CloseAt(w, key, t))
    ensures TerminatedAreRetired(w) ==> TerminatedAreRetired(CloseAt(w, key, t))
  {
    hide Core, MapsValid, SessionOk, SameIdentity, TerminatedAreRetired, Close;
    OnlyKeeps(w, key, t);
    CloseKeeps(Only(w, key, t), key);
    assert Only(w, key, t).sessions[key := Close(w.sh, key, t).1] == w.sessions[key := Close(w.sh, key, t).1];
  }

  predicate SessionStep(step: Step) {
    step.LoopTop? || step.SdkMessage? || step.DrainEnds? || step.Frame? || step.FrameTtl? || step.SessionTtl?
    || step.SocketDestroyed? || step.SocketGone? || step.ControlCloses?
  }

  lemma DropOk(s: Session, socket: Socket, claims: map<string, (Profile, string)>, minted: set<string>)
    requires SessionOk(s, claims, minted)
    ensures SessionOk(s.(control := DropSocket(s.control, socket).0), claims, minted)
    ensures SameIdentity(s, s.(control := DropSocket(s.control, socket).0))
  {
    ShrinkOk(s, DropSocket(s.control, socket).0, claims, minted);
    hide SessionOk;
  }

  lemma CloseControlOk(s: Session, claims: map<string, (Profile, string)>, minted: set<string>)
    requires SessionOk(s, claims, minted)
    ensures SessionOk(s.(control := CloseControl(s.control)), claims, minted)
  {
    ShrinkOk(s, CloseControl(s.control), claims, minted);
    hide SessionOk;
  }

  lemma DeadSocketOk(s: Session, socket: Socket, claims: map<string, (Profile, string)>, minted: set<string>)
    requires SessionOk(s, claims, minted)
    ensures SessionOk(s.(control := s.control.(dead := s.control.dead + {socket})), claims, minted)
  {
    ShrinkOk(s, s.control.(dead := s.control.dead + {socket}), claims, minted);
    hide SessionOk;
  }

  /** The steps of one session that may close it. */
  predicate MayClose(step: Step) {
    step.LoopTop? || step.DrainEnds? || step.SessionTtl? || step.SocketGone?
  }

  lemma ClosingStepKeeps(w: World, step: Step)
    requires Core(w) && MapsValid(w.sh.broker) && Enabled(w, step) && MayClose(step)
    ensures Core(After(w, step))
    ensures TerminatedAreRetired(w) ==> TerminatedAreRetired(After(w, step))
  {
    hide Core, MapsValid, SessionOk, SameIdentity, TerminatedAreRetired, Close, DropSocket, Loop;
    var key := step.key;
    var s := w.sessions[key];
    CoreParts(w, key);
    match step
    case LoopTop(_) =>
      if s.terminated {
        DrainMovesOk(s, Idle, w.claims, w.minted);
        ThenCloseKeeps(w, key, s.(drain := Idle));
      } else {
        LoopOk(s, w.claims, w.minted);
        OnlyKeeps(w, key, Loop(s));
      }
    case DrainEnds(_) =>
      DrainMovesOk(s, Idle, w.claims, w.minted);
      ThenCloseKeeps(w, key, s.(drain := Idle));
    case SessionTtl(_) => CloseKeeps(w, key);
    case SocketGone(_, socket) =>
      DropOk(s, socket, w.claims, w.minted);
      var t := s.(control := DropSocket(s.control, socket).0);
      if DropSocket(s.control, socket).1 {
        ThenCloseKeeps(w, key, t);
      } else {
        OnlyKeeps(w, key, t);
      }
  }

  lemma InnerStepKeeps(w: World, step: Step)
    requires Core(w) && MapsValid(w.sh.broker) && Enabled(w, step) && SessionStep(step) && !MayClose(step)
    ensures Core(After(w, step))
    ensures TerminatedAreRetired(w) ==> TerminatedAreRetired(After(w, step))
  {
    hide Core, MapsValid, SessionOk, TerminatedAreRetired, CloseControl, Release, Arrive;
    var key := step.key;
    var s := w.sessions[key];
    CoreParts(w, key);
    match step
    case SdkMessage(_) =>
      DrainMovesOk(s, Busy, w.claims, w.minted);
      OnlyKeeps(w, key, s.(drain := Busy));
    case Frame(_, f, socket) =>
      ArriveOk(s, f, socket, w.claims, w.minted);
      OnlyKeeps(w, key, Arrive(s, f, socket));
    case FrameTtl(_, f) =>
      ExpireOk(s, f, w.claims, w.minted);
      OnlyKeeps(w, key, s.(control := Release(s.control, f, Expiry).0));
    case SocketDestroyed(_, socket) =>
      DeadSocketOk(s, socket, w.claims, w.minted);
      OnlyKeeps(w, key, s.(control := s.control.(dead := s.control.dead + {socket})));
    case ControlCloses(_) =>
      CloseControlOk(s, w.claims, w.minted);
      OnlyKeeps(w, key, s.(control := CloseControl(s.control)));
  }

  lemma SessionStepKeeps(w: World, step: Step)
    requires Core(w) && MapsValid(w.sh.broker) && Enabled(w, step) && SessionStep(step)
    ensures Core(After(w, step))
    ensures TerminatedAreRetired(w) ==> TerminatedAreRetired(After(w, step))
  {
    hide Core, MapsValid, TerminatedAreRetired, Enabled, After;
    if MayClose(step) {
      ClosingStepKeeps(w, step);
    } else {
      InnerStepKeeps(w, step);
    }
  }

  lemma BrokerStepKeeps(w: World, step: Step)
    requires Core(w) && MapsValid(w.sh.broker) && Enabled(w, step)
    requires step.BrokerTtl? || step.OtherClaims? || step.OtherFails? || step.OtherCancels?
    ensures Core(After(w, step))
    ensures TerminatedAreRetired(w) ==> TerminatedAreRetired(After(w, step))
  {
    hide Core, Valid, MapsValid, TerminatedAreRetired, Shrunk, Fail, CancelScope, ClaimByPublicId;
    CoreParts(w, "");
    var st := w.sh.broker;
    match step
    case BrokerTtl(id) =>
      FailShrinks(st, id, Expired);
      BrokerShrinks(w, Fail(st, id, Expired));
    case OtherClaims(pid, profile) =>
      ClaimShrinks(st, pid, Some(profile));
      BrokerShrinks(w, ClaimByPublicId(st, pid, Some(profile)).0);
    case OtherFails(id) =>
      FailShrinks(st, id, Cancelled);
      BrokerShrinks(w, Fail(st, id, Cancelled));
    case OtherCancels(provider, session) =>
      CancelShrinks(st, Filter(Some(provider), session));
      BrokerShrinks(w, CancelScope(st, Filter(Some(provider), session)));
  }

  /** Every enabled step keeps the core; it keeps terminated sessions retired exactly when it is not a late park. */
  lemma StepKeeps(w: World, step: Step)
    requires Core(w) && MapsValid(w.sh.broker) && Enabled(w, step)
    ensures Core(After(w, step))
    ensures TerminatedAreRetired(w) ==> (TerminatedAreRetired(After(w, step)) <==> !LatePark(w, step))
  {
    hide Core, MapsValid, TerminatedAreRetired, Enabled, After, Parks;
    match step
    case Open(rid, profile) => OpenKeeps(w, rid, profile);
    case ResumeCall(key, pid) => ResumeKeeps(w, key, pid);
    case ClaimResult(rid, pid, profile, text) => ClaimStepOk(w, rid, pid, profile, text);
    case RunReturns(rid) => ReturnStepOk(w, rid);
    case CancelRequest(rid) => CancelStepOk(w, rid);
    case OtherCreates(call, aborted) => OtherCreatesKeeps(w, call, aborted);
    case BrokerTtl(_) => BrokerStepKeeps(w, step);
    case OtherClaims(_, _) => BrokerStepKeeps(w, step);
    case OtherFails(_) => BrokerStepKeeps(w, step);
    case OtherCancels(_, _) => BrokerStepKeeps(w, step);
    case _ => SessionStepKeeps(w, step);
  }

  lemma ClaimStepOk(w: World, rid: string, pid: string, profile: Profile, text: string)
    requires Core(w) && MapsValid(w.sh.broker) && Enabled(w, ClaimResult(rid, pid, profile, text))
    ensures Core(After(w, ClaimResult(rid, pid, profile, text)))
    ensures TerminatedAreRetired(w) ==> TerminatedAreRetired(After(w, ClaimResult(rid, pid, profile, text)))
  {
    hide Core, MapsValid, TerminatedAreRetired, AfterClaim;
    ClaimStepKeeps(w, rid, pid, profile, text);
  }

  lemma ReturnStepOk(w: World, rid: string)
    requires Core(w) && MapsValid(w.sh.broker) && Enabled(w, RunReturns(rid))
    ensures Core(After(w, RunReturns(rid)))
    ensures TerminatedAreRetired(w) ==> TerminatedAreRetired(After(w, RunReturns(rid)))
  {
    hide Core, MapsValid, TerminatedAreRetired;
    RunReturnsKeeps(w, rid);
  }

  lemma CancelStepOk(w: World, rid: string)
    requires Core(w) && MapsValid(w.sh.broker) && Enabled(w, CancelRequest(rid))
    ensures Core(After(w, CancelRequest(rid)))
    ensures TerminatedAreRetired(w) ==> TerminatedAreRetired(After(w, CancelRequest(rid)))
  {
    hide Core, MapsValid, TerminatedAreRetired, Close;
    CloseKeeps(w, w.sh.byRequest[rid]);
  }
}
