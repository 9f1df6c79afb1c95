/**
 * The steps of the parked-call protocol that add something to the shared state: minting a public id,
 * another adapter's entry in the shared broker, and the parking of a call. Each is shown to keep the
 * core invariant. Parking is where a terminated session can come back into the maps; the exact
 * condition under which it does is stated with the step.
 */
module ClaudeRuns {
  import opened Options
  import opened BrokerKeys
  import opened BrokerSpec
  import opened BrokerRuns
  import opened BrokerShrinking
  import opened ClaudeSpec
  import opened ClaudeWorld
  import opened ClaudeSessionProofs
  import opened ClaudeProofs

  // ---- spending fresh ids ----

  lemma MoreMinted(s: Session, claims: map<string, (Profile, string)>, minted: set<string>, more: set<string>)
    requires SessionOk(s, claims, minted) && minted <= more
    ensures SessionOk(s, claims, more)
  {
    hide ControlOk, TextsClaimed, DrainOk, FramesOk;
  }

  lemma SpendingKeepsEntries(w: World, w': World)
    requires EntriesOk(w) && w'.sh.broker == w.sh.broker && w'.sessions == w.sessions
    ensures EntriesOk(w')
  {
    forall id | id in w.sh.broker.entries.items ensures EntryOk(w', id, w.sh.broker.entries.items[id]) {
      var e := w.sh.broker.entries.items[id];
      assert EntryOk(w, id, e);
      if e.provider == Claude {
        var p :| IndexedAs(w, id, p, e);
        assert IndexedAs(w', id, p, e);
      }
    }
  }

  lemma MintKeeps(w: World, pid: string)
    requires Core(w)
    ensures Core(w.(minted := w.minted + {pid}))
    ensures TerminatedAreRetired(w) <==> TerminatedAreRetired(w.(minted := w.minted + {pid}))
  {
    hide Valid, EntriesOk, SessionOk, PublicOk, ForeignApart, RequestOk, ParkedApart, Retired;
    var w' := w.(minted := w.minted + {pid});
    SpendingKeepsEntries(w, w');
    forall k | k in w.sessions ensures SessionOk(w.sessions[k], w.claims, w'.minted) {
      MoreMinted(w.sessions[k], w.claims, w.minted, w'.minted);
    }
  }

  // ---- another adapter creates an entry ----

  /** `b` is the broker with one more entry, of another adapter. */
  ghost predicate GrownByOther(a: State<Owner>, b: State<Owner>, id: string, pid: Option<string>) {
    && Valid(b)
    && id !in a.entries.items && id in b.entries.items
    && b.entries.items == a.entries.items[id := b.entries.items[id]]
    && b.entries.items[id].provider != Claude && b.entries.items[id].context == Some(OtherAdapter)
    && (pid == None ==> b.publicIndex == a.publicIndex)
    && (pid.Some? ==> pid.value !in a.publicIndex.items && b.publicIndex.items == a.publicIndex.items[pid.value := id])
  }

  lemma GrownEntriesOk(w: World, b: State<Owner>, id: string, pid: Option<string>)
    requires EntriesOk(w) && GrownByOther(w.sh.broker, b, id, pid)
    ensures EntriesOk(WithBroker(w, b))
  {
    hide Valid;
    var w' := WithBroker(w, b);
    forall x | x in b.entries.items ensures EntryOk(w', x, b.entries.items[x]) {
      if x != id {
        var e := w.sh.broker.entries.items[x];
        assert EntryOk(w, x, e);
        if e.provider == Claude {
          var p :| IndexedAs(w, x, p, e);
          assert IndexedAs(w', x, p, e);
        }
      }
    }
  }

  lemma GrownRetired(k: SessionKey, s: Session, sh: Shared, b: State<Owner>, id: string, pid: Option<string>)
    requires Retired(k, s, sh) && GrownByOther(sh.broker, b, id, pid)
    ensures Retired(k, s, sh.(broker := b))
  {
    hide Valid;
  }

  lemma GrownIdsOk(a: State<Owner>, b: State<Owner>, id: string, pid: Option<string>, minted: set<string>,
      claims: map<string, (Profile, string)>)
    requires IdsOk(a.publicIndex.items, minted, claims) && GrownByOther(a, b, id, pid)
    requires pid.Some? ==> pid.value in minted && pid.value !in claims
    ensures IdsOk(b.publicIndex.items, minted, claims)
  {
    hide Valid;
  }

  lemma GrownApart(a: State<Owner>, b: State<Owner>, id: string, pid: Option<string>, byPublic: map<string, SessionKey>)
    requires ForeignApart(a, byPublic) && GrownByOther(a, b, id, pid) && (pid.Some? ==> pid.value !in byPublic)
    requires forall p :: p in a.publicIndex.items ==> a.publicIndex.items[p] in a.entries.items
    ensures ForeignApart(b, byPublic)
  {
    hide Valid;
  }

  lemma BrokerGrows(w: World, b: State<Owner>, id: string, pid: Option<string>)
    requires Core(w) && GrownByOther(w.sh.broker, b, id, pid) && (pid.Some? ==> pid.value !in w.sh.byPublic)
    requires pid.Some? ==> pid.value in w.minted && pid.value !in w.claims
    ensures Core(WithBroker(w, b))
    ensures TerminatedAreRetired(w) ==> TerminatedAreRetired(WithBroker(w, b))
  {
    assert Valid(b);
    assert Valid(w.sh.broker);
    hide Valid, GrownByOther, EntriesOk, PublicOk, ForeignApart, RequestOk, IdsOk, ParkedApart, KeysOk,
        SessionsOk, Retired;
    GrownEntriesOk(w, b, id, pid);
    ValidIndex(w.sh.broker);
    GrownApart(w.sh.broker, b, id, pid, w.sh.byPublic);
    GrownIdsOk(w.sh.broker, b, id, pid, w.minted, w.claims);
    if TerminatedAreRetired(w) {
      forall k | k in w.sessions && w.sessions[k].terminated ensures Retired(k, w.sessions[k], w.sh.(broker := b)) {
        GrownRetired(k, w.sessions[k], w.sh, b, id, pid);
      }
    }
  }

  lemma OtherCreateKeeps(w: World, call: BrokerKey)
    requires Core(w) && call.provider != Claude
    requires call.publicId.Some? ==> call.publicId.value in w.minted && call.publicId.value !in w.claims
    requires call.publicId.Some? ==> call.publicId.value !in w.sh.byPublic
    requires MapsValid(w.sh.broker)
    ensures var b := Create(w.sh.broker, call, Some(OtherAdapter), false).0;
            && Core(WithBroker(w, b))
            && (TerminatedAreRetired(w) ==> TerminatedAreRetired(WithBroker(w, b)))
  {
    var st := w.sh.broker;
    CoreParts(w, "");
    hide Core, Valid, MapsValid, Create, TerminatedAreRetired, KeyOf;
    hide Shrunk, GrownByOther;
    var (b, refusal) := Create(st, call, Some(OtherAdapter), false);
    CreatedByOther(st, call);
    if refusal.Some? {
      BrokerShrinks(w, b);
    } else {
      BrokerGrows(w, b, KeyOf(call).value, call.publicId);
    }
  }

  lemma CreatedByOther(st: State<Owner>, call: BrokerKey)
    requires Valid(st) && MapsValid(st) && call.provider != Claude
    ensures var (b, refusal) := Create(st, call, Some(OtherAdapter), false);
            && (refusal.Some? ==> Shrunk(st, b))
            && (refusal == None ==> KeyOf(call).Ok? && GrownByOther(st, b, KeyOf(call).value, call.publicId))
  {
    hide Valid, MapsValid, Create, KeyOf;
    CreateKeeps(st, call, Some(OtherAdapter), false);
    CreateEffect(st, call, Some(OtherAdapter));
    var (b, refusal) := Create(st, call, Some(OtherAdapter), false);
    if refusal.Some? {
      SameEntriesShrunk(st, b);
    }
  }

  lemma PublicIsMinted(w: World, p: string)
    requires Core(w) && p in w.sh.byPublic
    ensures p in w.minted
  {
    hide Valid, EntriesOk, PublicOk, ForeignApart, RequestOk, IdsOk, ParkedApart, KeysOk, SessionsOk;
    MintedWhenPublic(w.sessions, w.sh.byPublic, w.claims, w.minted, p);
  }

  function Minting(w: World, pid: Option<string>): World {
    if pid.Some? then w.(minted := w.minted + {pid.value}) else w
  }

  lemma MintingKeeps(w: World, pid: Option<string>)
    requires Core(w) && (pid.Some? ==> pid.value !in w.minted)
    ensures var w1 := Minting(w, pid);
            && Core(w1) && (TerminatedAreRetired(w) <==> TerminatedAreRetired(w1))
            && (pid.Some? ==> pid.value in w1.minted && pid.value !in w1.claims)
  {
    assert w.claims.Keys <= w.minted;
    hide Core, TerminatedAreRetired;
    if pid.Some? {
      MintKeeps(w, pid.value);
    }
  }

  lemma OtherCreatesKeeps(w: World, call: BrokerKey, aborted: bool)
    requires Core(w) && MapsValid(w.sh.broker) && Enabled(w, OtherCreates(call, aborted))
    ensures Core(After(w, OtherCreates(call, aborted)))
    ensures TerminatedAreRetired(w) ==> TerminatedAreRetired(After(w, OtherCreates(call, aborted)))
  {
    hide Core, Valid, MapsValid, Create, TerminatedAreRetired, Shrunk;
    var w1 := Minting(w, call.publicId);
    MintingKeeps(w, call.publicId);
    if call.publicId.Some? && call.publicId.value in w.sh.byPublic {
      PublicIsMinted(w, call.publicId.value);
    }
    OtherCreateKeeps(w1, call);
    CoreParts(w, "");
    AbortedShrinks(w.sh.broker, call, Some(OtherAdapter));
    BrokerShrinks(WithBroker(w1, Create(w.sh.broker, call, Some(OtherAdapter), false).0),
                  Create(w.sh.broker, call, Some(OtherAdapter), true).0);
  }

  // ---- a call is parked ----

  /** The world right after a call of `key` was parked under `pid`. */
  ghost predicate ParkedInto(w: World, w': World, key: SessionKey, pid: string, id: string, t: Session) {
    && key in w.sessions && w.sessions[key].publicId == None
    && w' == w.(sh := w'.sh, sessions := w.sessions[key := t], minted := w.minted + {pid})
    && w'.sh == w.sh.(broker := w'.sh.broker, byPublic := w.sh.byPublic[pid := key])
    && t.publicId == Some(pid) && t.profile == w.sessions[key].profile && t.requestId == w.sessions[key].requestId
    && t.terminated == w.sessions[key].terminated
    && id !in w.sh.broker.entries.items
    && w'.sh.broker.entries.items == w.sh.broker.entries.items[id :=
        Entry(t.profile, Claude, key, Some(ClaudeSession(key)), [])]
    && w'.sh.broker.publicIndex.items == w.sh.broker.publicIndex.items[pid := id]
    && pid !in w.minted
  }

  lemma ParkedEntriesOk(w: World, w': World, key: SessionKey, pid: string, id: string, t: Session)
    requires EntriesOk(w) && ParkedInto(w, w', key, pid, id, t) && '|' !in key
    requires pid !in w.sh.broker.publicIndex.items
    ensures EntriesOk(w')
  {
    forall x | x in w'.sh.broker.entries.items ensures EntryOk(w', x, w'.sh.broker.entries.items[x]) {
      var e := w'.sh.broker.entries.items[x];
      if x == id {
        assert IndexedAs(w', id, pid, e);
      } else {
        assert EntryOk(w, x, e);
        if e.provider == Claude {
          var p :| IndexedAs(w, x, p, e);
          assert IndexedAs(w', x, p, e);
        }
      }
    }
  }

  lemma MintedWhenPublic(sessions: map<SessionKey, Session>, byPublic: map<string, SessionKey>,
                         claims: map<string, (Profile, string)>, minted: set<string>, p: string)
    requires PublicOk(byPublic, sessions) && SessionsOk(sessions, claims, minted) && p in byPublic
    ensures p in minted
  {
    var s := sessions[byPublic[p]];
    assert SessionOk(s, claims, minted);
    assert s.parkedAs[s.parked.value] in s.parkedAs.Values;
  }

  lemma ParkedPublicOk(byPublic: map<string, SessionKey>, sessions: map<SessionKey, Session>, key: SessionKey,
      t: Session, pid: string)
    requires PublicOk(byPublic, sessions) && key in sessions && sessions[key].publicId == None
    requires pid !in byPublic && t.publicId == Some(pid)
    ensures PublicOk(byPublic[pid := key], sessions[key := t])
    ensures |byPublic[pid := key]| == |byPublic| + 1
  {
  }

  lemma ParkedForeignApart(w: World, w': World, key: SessionKey, pid: string, id: string, t: Session)
    requires ForeignApart(w.sh.broker, w.sh.byPublic) && ParkedInto(w, w', key, pid, id, t)
    requires forall p :: p in w.sh.broker.publicIndex.items ==>
        w.sh.broker.publicIndex.items[p] in w.sh.broker.entries.items
    ensures ForeignApart(w'.sh.broker, w'.sh.byPublic)
  {
  }

  lemma ParkedIdsMinted(sessions: map<SessionKey, Session>, claims: map<string, (Profile, string)>,
      minted: set<string>, k: SessionKey, g: FrameId)
    requires SessionsOk(sessions, claims, minted) && k in sessions && g in sessions[k].parkedAs
    ensures sessions[k].parkedAs[g] in minted
  {
    assert SessionOk(sessions[k], claims, minted);
    assert sessions[k].parkedAs[g] in sessions[k].parkedAs.Values;
  }

  lemma ParkedApartOk(sessions: map<SessionKey, Session>, key: SessionKey, t: Session, pid: string, f: FrameId,
                      claims: map<string, (Profile, string)>, minted: set<string>)
    requires ParkedApart(sessions) && SessionsOk(sessions, claims, minted) && pid !in minted
    requires key in sessions && t.parkedAs == sessions[key].parkedAs[f := pid]
    ensures ParkedApart(sessions[key := t])
  {
    hide SessionOk, SessionsOk;
    forall k, g | k in sessions && g in sessions[k].parkedAs ensures sessions[k].parkedAs[g] != pid {
      ParkedIdsMinted(sessions, claims, minted, k, g);
    }
  }

  lemma ParkedRetired(w: World, w': World, key: SessionKey, pid: string, id: string, t: Session)
    requires ParkedInto(w, w', key, pid, id, t) && TerminatedAreRetired(w)
    ensures TerminatedAreRetired(w') <==> !w.sessions[key].terminated
  {
    if w.sessions[key].terminated {
      assert !Retired(key, w'.sessions[key], w'.sh);
    } else {
      forall k | k in w'.sessions && w'.sessions[k].terminated ensures Retired(k, w'.sessions[k], w'.sh) {
        assert Retired(k, w.sessions[k], w.sh);
      }
    }
  }

  lemma ParkedMaps(w: World, w': World, key: SessionKey, pid: string, id: string, t: Session)
    requires ParkedInto(w, w', key, pid, id, t)
    requires KeysOk(w.sessions, w.used) && IdsOk(w.sh.broker.publicIndex.items, w.minted, w.claims)
    requires PublicOk(w.sh.byPublic, w.sessions) && pid !in w.sh.byPublic
    ensures PublicOk(w'.sh.byPublic, w'.sessions) && |w'.sh.byPublic| == |w.sh.byPublic| + 1
        && w'.sh.maxLive == w.sh.maxLive
    ensures KeysOk(w'.sessions, w'.used) && IdsOk(w'.sh.broker.publicIndex.items, w'.minted, w'.claims)
    ensures '|' !in key && pid !in w.sh.broker.publicIndex.items && pid !in w.minted && w'.claims == w.claims
  {
    hide PublicOk;
    ParkedPublicOk(w.sh.byPublic, w.sessions, key, t, pid);
  }

  lemma ParkedSessions(w: World, w': World, key: SessionKey, pid: string, id: string, t: Session, f: FrameId)
    requires ParkedInto(w, w', key, pid, id, t) && ParkedApart(w.sessions) && RequestOk(w.sh.byRequest, w.sessions)
    requires SessionsOk(w.sessions, w.claims, w.minted) && SessionOk(t, w.claims, w'.minted)
    requires t.parkedAs == w.sessions[key].parkedAs[f := pid]
    ensures SessionsOk(w'.sessions, w'.claims, w'.minted) && ParkedApart(w'.sessions)
        && RequestOk(w'.sh.byRequest, w'.sessions)
  {
    hide SessionOk, ParkedApart, RequestOk;
    SameRequestOk(w.sh.byRequest, w.sessions, key, t);
    ParkedApartOk(w.sessions, key, t, pid, f, w.claims, w.minted);
    forall k | k in w'.sessions ensures SessionOk(w'.sessions[k], w'.claims, w'.minted) {
      if k != key {
        MoreMinted(w.sessions[k], w.claims, w.minted, w'.minted);
      }
    }
  }

  lemma ParkingKeeps(w: World, w': World, key: SessionKey, pid: string, id: string, t: Session, f: FrameId)
    requires Core(w) && ParkedInto(w, w', key, pid, id, t) && Valid(w'.sh.broker)
    requires |w.sh.byPublic| < w.sh.maxLive && SessionOk(t, w.claims, w'.minted)
    requires t.parkedAs == w.sessions[key].parkedAs[f := pid]
    ensures Core(w')
    ensures TerminatedAreRetired(w) ==> (TerminatedAreRetired(w') <==> !w.sessions[key].terminated)
  {
    assert Valid(w.sh.broker);
    assert pid !in w.sh.byPublic by {
      if pid in w.sh.byPublic {
        PublicIsMinted(w, pid);
      }
    }
    hide Valid, EntriesOk, SessionOk, SessionsOk, PublicOk, ForeignApart, RequestOk, ParkedApart, KeysOk,
        IdsOk, ParkedInto,
      TerminatedAreRetired;
    ValidIndex(w.sh.broker);
    ParkedForeignApart(w, w', key, pid, id, t);
    ParkedMaps(w, w', key, pid, id, t);
    ParkedEntriesOk(w, w', key, pid, id, t);
    ParkedSessions(w, w', key, pid, id, t, f);
    if TerminatedAreRetired(w) {
      ParkedRetired(w, w', key, pid, id, t);
    }
  }

  lemma SameRequestOk(byRequest: map<string, SessionKey>, sessions: map<SessionKey, Session>,
      key: SessionKey, t: Session)
    requires RequestOk(byRequest, sessions) && key in sessions && t.requestId == sessions[key].requestId
    ensures RequestOk(byRequest, sessions[key := t])
  {
  }

  /** The spent session, its frame answered, on a broker that may have dropped a terminal mark: ready to be closed. */
  lemma RefusedParkKeeps(w: World, key: SessionKey, b: State<Owner>, pid: string)
    requires Core(w) && key in w.sessions && w.sessions[key].drain == Resuming && w.sessions[key].handoff.Ready?
    requires Valid(b) && MapsValid(b) && b.entries == w.sh.broker.entries && b.publicIndex == w.sh.broker.publicIndex
    ensures var s := w.sessions[key];
            var w1 := WithBroker(w.(minted := w.minted + {pid}), b);
            var t := Rejected(s.(handoff := NoPromise, drain := Idle), s.handoff.frame);
            && Core(CloseAt(w1, key, t))
            && (TerminatedAreRetired(w) ==> TerminatedAreRetired(CloseAt(w1, key, t)))
  {
    hide Core, Valid, MapsValid, TerminatedAreRetired, Shrunk, SessionOk, Close, Rejected;
    var s := w.sessions[key];
    var t := Rejected(s.(handoff := NoPromise, drain := Idle), s.handoff.frame);
    var w0 := w.(minted := w.minted + {pid});
    MintKeeps(w, pid);
    CoreParts(w, key);
    SameEntriesShrunk(w.sh.broker, b);
    BrokerShrinks(w0, b);
    var w1 := WithBroker(w0, b);
    CoreParts(w1, key);
    SpentOk(s, w.claims, w1.minted);
    SpentSame(s);
    OnlyKeeps(w1, key, t);
    CloseKeeps(Only(w1, key, t), key);
    assert Only(w1, key, t).sessions[key := Close(w1.sh, key, t).1] == w1.sessions[key := Close(w1.sh, key, t).1];
  }

  lemma SpentSame(s: Session)
    requires s.handoff.Ready?
    ensures SameIdentity(s, Rejected(s.(handoff := NoPromise, drain := Idle), s.handoff.frame))
  {
  }

  lemma ParkRefuses(sh: Shared, key: SessionKey, s: Session, pid: string)
    requires Valid(sh.broker) && MapsValid(sh.broker) && s.handoff.Ready? && DrainOk(s)
    requires s.drain == Resuming && !Parks(sh, key, s, pid)
    ensures var t := Rejected(s.(handoff := NoPromise, drain := Idle), s.handoff.frame);
            var tried := Create(sh.broker, KeyFor(key, s, pid), Some(ClaudeSession(key)), false);
            var b := if s.gate || |sh.byPublic| >= sh.maxLive then sh.broker else tried.0;
            && (b == sh.broker || tried.1.Some?)
            && MapsValid(b)
            && Resume(sh, key, s, pid) == Close(sh.(broker := b), key, t)
  {
    hide Create, MapsValid, Close, Rejected, Valid;
    CreateKeeps(sh.broker, KeyFor(key, s, pid), Some(ClaudeSession(key)), false);
    ValidMaps(Create(sh.broker, KeyFor(key, s, pid), Some(ClaudeSession(key)), false).0);
    if !s.gate {
      assert s.(gate := false, parked := None, publicId := None) == s;
    }
  }

  function ParkedSession(s: Session, pid: string): Session
    requires s.handoff.Ready?
  {
    s.(handoff := NoPromise, drain := Idle, gate := true, parked := Some(s.handoff.frame), publicId := Some(pid),
       ttl := true, parkedAs := s.parkedAs[s.handoff.frame := pid])
  }

  lemma ParkAccepts(sh: Shared, key: SessionKey, s: Session, pid: string)
    requires MapsValid(sh.broker) && s.handoff.Ready? && Parks(sh, key, s, pid)
    ensures var created := Create(sh.broker, KeyFor(key, s, pid), Some(ClaudeSession(key)), false);
            && created.1 == None && |sh.byPublic| < sh.maxLive && !s.gate
            && Resume(sh, key, s, pid)
                 == (sh.(broker := created.0, byPublic := sh.byPublic[pid := key]), ParkedSession(s, pid))
  {
    hide Create, MapsValid, Close;
  }

  lemma GateShut(s: Session, claims: map<string, (Profile, string)>, minted: set<string>)
    requires SessionOk(s, claims, minted)
    ensures DrainOk(s) && (!s.gate ==> s.publicId == None && s.parked == None && !s.ttl)
  {
    hide TextsClaimed, ControlOk, FramesOk;
  }

  lemma ParkAcceptedKeeps(w: World, key: SessionKey, pid: string)
    requires Core(w) && MapsValid(w.sh.broker) && key in w.sessions && pid !in w.minted
    requires w.sessions[key].drain == Resuming && w.sessions[key].handoff.Ready?
        && Parks(w.sh, key, w.sessions[key], pid)
    ensures var w' := With(w, key, Resume(w.sh, key, w.sessions[key], pid)).(minted := w.minted + {pid});
            && Core(w')
            && (TerminatedAreRetired(w) ==> (TerminatedAreRetired(w') <==> !w.sessions[key].terminated))
  {
    hide Core, Valid, MapsValid, TerminatedAreRetired, SessionOk, Create, Resume, KeyOf, Parks;
    CoreParts(w, key);
    var s := w.sessions[key];
    var call := KeyFor(key, s, pid);
    var w' := With(w, key, Resume(w.sh, key, s, pid)).(minted := w.minted + {pid});
    GateShut(s, w.claims, w.minted);
    ParkAccepts(w.sh, key, s, pid);
    ParkedOk(s, pid, w.claims, w.minted);
    CreateKeeps(w.sh.broker, call, Some(ClaudeSession(key)), false);
    CreateEffect(w.sh.broker, call, Some(ClaudeSession(key)));
    ParkingKeeps(w, w', key, pid, KeyOf(call).value, ParkedSession(s, pid), s.handoff.frame);
  }

  /** The step on which the code parks a call of a session that has already terminated. */
  predicate LatePark(w: World, step: Step)
    requires MapsValid(w.sh.broker)
  {
    && step.ResumeCall? && Enabled(w, step)
    && w.sessions[step.key].terminated
    && Parks(w.sh, step.key, w.sessions[step.key], step.pid)
  }

  lemma ResumeKeeps(w: World, key: SessionKey, pid: string)
    requires Core(w) && MapsValid(w.sh.broker) && Enabled(w, ResumeCall(key, pid))
    ensures Core(After(w, ResumeCall(key, pid)))
    ensures TerminatedAreRetired(w) ==>
              (TerminatedAreRetired(After(w, ResumeCall(key, pid))) <==> !LatePark(w, ResumeCall(key, pid)))
  {
    hide Core, Valid, MapsValid, TerminatedAreRetired, SessionOk, Create, Close, Rejected, Resume, KeyOf,
        DrainOk, Parks;
    CoreParts(w, key);
    var s := w.sessions[key];
    GateShut(s, w.claims, w.minted);
    if Parks(w.sh, key, s, pid) {
      ParkAccepts(w.sh, key, s, pid);
      ParkAcceptedKeeps(w, key, pid);
    } else {
      ParkRefuses(w.sh, key, s, pid);
      CreateKeeps(w.sh.broker, KeyFor(key, s, pid), Some(ClaudeSession(key)), false);
      CreateEffect(w.sh.broker, KeyFor(key, s, pid), Some(ClaudeSession(key)));
      var tried := Create(w.sh.broker, KeyFor(key, s, pid), Some(ClaudeSession(key)), false);
      RefusedParkKeeps(w, key, if s.gate || |w.sh.byPublic| >= w.sh.maxLive then w.sh.broker else tried.0, pid);
    }
  }
}
