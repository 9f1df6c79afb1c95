/**
 * All sessions of one Router process as a step system. Every interleaving of frames, hand-offs,
 * claims, the three kinds of deadline, cancellations, dying sockets and other adapters' use of the
 * shared broker is a sequence of these steps; a step that is not enabled changes nothing.
 */
module ClaudeWorld {
  import opened Options
  import opened BrokerKeys
  import opened BrokerSpec
  import opened BrokerRuns
  import opened ClaudeSpec

  /**
   * `used`, `minted` and `claims` are tapes: request ids and public ids spent, and every claim this adapter resolved.
   */
  datatype World = World(
    sh: Shared,
    sessions: map<SessionKey, Session>,
    used: set<string>,
    minted: set<string>,
    claims: map<string, (Profile, string)>)

  datatype Step =
    | Open(rid: string, profile: Profile)
    | LoopTop(key: SessionKey)
    | SdkMessage(key: SessionKey)
    | DrainEnds(key: SessionKey)
    | Frame(key: SessionKey, frame: FrameId, socket: Socket)
    | ResumeCall(key: SessionKey, pid: string)
    | ClaimResult(rid: string, pid: string, profile: Profile, text: string)
    | RunReturns(rid: string)
    | FrameTtl(key: SessionKey, frame: FrameId)
    | BrokerTtl(id: string)
    | SessionTtl(key: SessionKey)
    | CancelRequest(rid: string)
    | SocketDestroyed(key: SessionKey, socket: Socket)
    | SocketGone(key: SessionKey, socket: Socket)
    | ControlCloses(key: SessionKey)
    | OtherCreates(call: BrokerKey, aborted: bool)
    | OtherClaims(pid: string, profile: Profile)
    | OtherFails(id: string)
    | OtherCancels(provider: Provider, session: Option<string>)

  function NewSession(rid: string, profile: Profile): Session {
    Session(profile, rid, Busy, NoPromise, [], false, None, None, false, false,
        Control(map[], {}, false, []), {}, map[])
  }

  function Start(maxLive: nat, maxPending: nat): World {
    World(Shared(Initial(maxPending), map[], map[], maxLive), map[], {}, {}, map[])
  }

  predicate Live(w: World, key: SessionKey, drain: Drain) {
    key in w.sessions && w.sessions[key].drain == drain
  }

  /** Freshness of ids, and the program point a step needs. */
  predicate Enabled(w: World, step: Step) {
    match step
    case Open(rid, _) => rid !in w.used && rid != "" && '|' !in rid
    case LoopTop(key) => Live(w, key, Busy)
    case SdkMessage(key) => Live(w, key, Racing) || Live(w, key, Resuming)
    case DrainEnds(key) => Live(w, key, Busy)
    case Frame(key, f, socket) =>
      key in w.sessions && f !in w.sessions[key].seen && socket !in w.sessions[key].control.dead
    case ResumeCall(key, pid) => Live(w, key,
        Resuming) && w.sessions[key].handoff.Ready? && pid != "" && pid !in w.minted
    case ClaimResult(rid, _, _, _) => rid !in w.used
    case RunReturns(rid) => rid in w.sh.byRequest && Live(w, w.sh.byRequest[rid], Idle)
    case FrameTtl(key, f) => key in w.sessions
    case BrokerTtl(id) => true
    case SessionTtl(key) => key in w.sessions && w.sessions[key].ttl
    case CancelRequest(rid) => rid in w.sh.byRequest && w.sh.byRequest[rid] in w.sessions
    case SocketDestroyed(key, _) => key in w.sessions
    case SocketGone(key, _) => key in w.sessions
    case ControlCloses(key) => key in w.sessions && w.sessions[key].terminated
    case OtherCreates(call, _) => call.provider != Claude && (call.publicId.Some? ==> call.publicId.value !in w.minted)
    case OtherClaims(_, _) => true
    case OtherFails(id) => id in w.sh.broker.entries.items && w.sh.broker.entries.items[id].provider != Claude
    case OtherCancels(provider, _) => provider != Claude
  }

  /** One session and the shared state change together. */
  function With(w: World, key: SessionKey, next: (Shared, Session)): World {
    w.(sh := next.0, sessions := w.sessions[key := next.1])
  }

  function Only(w: World, key: SessionKey, s: Session): World {
    w.(sessions := w.sessions[key := s])
  }

  function CloseAt(w: World, key: SessionKey, s: Session): World
    requires MapsValid(w.sh.broker)
  {
    With(w, key, Close(w.sh, key, s))
  }

  function AfterClaim(w: World, rid: string, pid: string, profile: Profile, text: string): World
    requires MapsValid(w.sh.broker)
  {
    var (broker, claim) := ClaimByPublicId(w.sh.broker, pid, Some(profile));
    ClaimLeavesMaps(w.sh.broker, pid, profile);
    var w1 := w.(sh := w.sh.(broker := broker));
    if claim.outcome != OutResolved || claim.context == None then w1
    else if claim.context.value.ClaudeSession? && claim.context.value.key in w.sessions then
      var key := claim.context.value.key;
      With(w1, key, Continue(w1.sh, key, w.sessions[key], pid, rid, text))
        .(used := w.used + {rid}, claims := w.claims[pid := (profile, text)])
    else w1.(sh := ContinueForeign(w1.sh, pid, rid), used := w.used + {rid})
  }

  lemma ClaimLeavesMaps(b: State<Owner>, pid: string, profile: Profile)
    requires MapsValid(b)
    ensures MapsValid(ClaimByPublicId(b, pid, Some(profile)).0)
  {
  }

  function After(w: World, step: Step): World
    requires MapsValid(w.sh.broker) && Enabled(w, step)
  {
    match step
    case Open(rid, profile) =>
      w.(sessions := w.sessions[rid := NewSession(rid, profile)],
         sh := w.sh.(byRequest := w.sh.byRequest[rid := rid]),
         used := w.used + {rid})
    case LoopTop(key) =>
      var s := w.sessions[key];
      if s.terminated then CloseAt(w, key, s.(drain := Idle)) else Only(w, key, Loop(s))
    case SdkMessage(key) => Only(w, key, w.sessions[key].(drain := Busy))
    case DrainEnds(key) => CloseAt(w, key, w.sessions[key].(drain := Idle))
    case Frame(key, f, socket) => Only(w, key, Arrive(w.sessions[key], f, socket))
    case ResumeCall(key, pid) => With(w, key, Resume(w.sh, key, w.sessions[key], pid)).(minted := w.minted + {pid})
    case ClaimResult(rid, pid, profile, text) => AfterClaim(w, rid, pid, profile, text)
    case RunReturns(rid) => w.(sh := w.sh.(byRequest := w.sh.byRequest - {rid}))
    case FrameTtl(key, f) => Only(w, key, w.sessions[key].(control := Release(w.sessions[key].control, f, Expiry).0))
    case BrokerTtl(id) => w.(sh := w.sh.(broker := Fail(w.sh.broker, id, Expired)))
    case SessionTtl(key) => CloseAt(w, key, w.sessions[key])
    case CancelRequest(rid) => CloseAt(w, w.sh.byRequest[rid], w.sessions[w.sh.byRequest[rid]])
    case SocketDestroyed(key, socket) =>
      var s := w.sessions[key];
      Only(w, key, s.(control := s.control.(dead := s.control.dead + {socket})))
    case SocketGone(key, socket) =>
      var s := w.sessions[key];
      var (c, owned) := DropSocket(s.control, socket);
      if owned then CloseAt(w, key, s.(control := c)) else Only(w, key, s.(control := c))
    case ControlCloses(key) => Only(w, key, w.sessions[key].(control := CloseControl(w.sessions[key].control)))
    case OtherCreates(call, aborted) =>
      w.(sh := w.sh.(broker := Create(w.sh.broker, call, Some(OtherAdapter), aborted).0),
         minted := if call.publicId.Some? then w.minted + {call.publicId.value} else w.minted)
    case OtherClaims(pid, profile) => w.(sh := w.sh.(broker := ClaimByPublicId(w.sh.broker, pid, Some(profile)).0))
    case OtherFails(id) => w.(sh := w.sh.(broker := Fail(w.sh.broker, id, Cancelled)))
    case OtherCancels(provider, session) =>
      w.(sh := w.sh.(broker := CancelScope(w.sh.broker, Filter(Some(provider), session))))
  }

  function Next(w: World, step: Step): World
    requires MapsValid(w.sh.broker)
  {
    if Enabled(w, step) then After(w, step) else w
  }

  // ---- what every state keeps ----

  function OneOrNone(f: Option<FrameId>): set<FrameId> {
    if f.Some? then {f.value} else {}
  }

  function HandedOff(s: Session): Option<FrameId> {
    if s.handoff.Ready? then Some(s.handoff.frame) else None
  }

  /** The frames the session still holds: parked, handed off, or queued. */
  function Holds(s: Session): set<FrameId> {
    OneOrNone(s.parked) + OneOrNone(HandedOff(s)) + (if s.queue != [] then {s.queue[0]} else {})
  }

  ghost predicate ControlOk(c: Control, seen: set<FrameId>) {
    && (forall f :: f in c.pending ==> f in seen)
    && (forall i :: 0 <= i < |c.replies| ==> c.replies[i].frame in seen && c.replies[i].frame !in c.pending)
    && (forall i, j :: 0 <= i < j < |c.replies| ==> c.replies[i].frame != c.replies[j].frame)
  }

  /** Every result text that was written answers the frame it was claimed for. */
  ghost predicate TextsClaimed(s: Session, claims: map<string, (Profile, string)>) {
    forall i :: 0 <= i < |s.control.replies| && s.control.replies[i].body.Text? ==>
        TextClaimed(s, claims, s.control.replies[i])
  }

  ghost predicate TextClaimed(s: Session, claims: map<string, (Profile, string)>, r: Reply) {
    && r.frame in s.parkedAs
    && s.parkedAs[r.frame] in claims
    && r.body == Text(claims[s.parkedAs[r.frame]].1)
    && claims[s.parkedAs[r.frame]].0 == s.profile
  }

  ghost predicate DrainOk(s: Session) {
    && (s.drain == Racing ==> s.handoff == Waiting)
    && (s.drain == Resuming ==> s.handoff.Ready?)
    && |s.queue| <= 1
    && (s.queue != [] ==> s.handoff != Waiting)
    && (!s.gate ==> s.parked == None)
    && (s.parked.Some? <==> s.publicId.Some?)
    && (s.parked.Some? ==> s.drain == Idle && s.handoff == NoPromise)
    && (s.ttl ==> s.gate)
    && (s.parked.Some? ==> s.ttl)
  }

  ghost predicate FramesOk(s: Session) {
    && (forall f :: f in s.control.pending ==> f in Holds(s))
    && Holds(s) <= s.seen
    && (s.handoff.Ready? ==> s.handoff.frame !in s.parkedAs)
    && (s.queue != [] ==> s.queue[0] !in s.parkedAs && HandedOff(s) != Some(s.queue[0]))
    && (s.parked.Some? ==> s.parked.value in s.parkedAs && s.publicId == Some(s.parkedAs[s.parked.value]))
    && s.parkedAs.Keys <= s.seen
  }

  ghost predicate SessionOk(s: Session, claims: map<string, (Profile, string)>, minted: set<string>) {
    && ControlOk(s.control, s.seen) && TextsClaimed(s, claims) && DrainOk(s) && FramesOk(s)
    && s.parkedAs.Values <= minted
  }

  /** A live entry of this adapter names a session that names its public id back. */
  ghost predicate Linked(w: World, p: string, e: Entry<Owner>) {
    && e.context == Some(ClaudeSession(e.sessionId))
    && e.sessionId in w.sessions
    && w.sessions[e.sessionId].publicId == Some(p)
    && w.sessions[e.sessionId].profile == e.profile
  }

  ghost predicate IndexedAs(w: World, id: string, p: string, e: Entry<Owner>) {
    p in w.sh.broker.publicIndex.items && w.sh.broker.publicIndex.items[p] == id && Linked(w, p, e)
  }

  ghost predicate EntryOk(w: World, id: string, e: Entry<Owner>) {
    && (e.provider == Claude ==> '|' !in e.sessionId && exists p :: IndexedAs(w, id, p, e))
    && (e.provider != Claude ==> e.context == Some(OtherAdapter))
  }

  ghost predicate EntriesOk(w: World) {
    forall id :: id in w.sh.broker.entries.items ==> EntryOk(w, id, w.sh.broker.entries.items[id])
  }

  /** A public-id map entry and its session's own public id name each other. */
  ghost predicate PublicOk(byPublic: map<string, SessionKey>, sessions: map<SessionKey, Session>) {
    && (forall p :: p in byPublic ==> byPublic[p] in sessions && sessions[byPublic[p]].publicId == Some(p))
    && (forall k :: k in sessions && sessions[k].publicId.Some? ==>
          sessions[k].publicId.value in byPublic && byPublic[sessions[k].publicId.value] == k)
  }

  ghost predicate RequestOk(byRequest: map<string, SessionKey>, sessions: map<SessionKey, Session>) {
    forall r :: r in byRequest ==> byRequest[r] in sessions && sessions[byRequest[r]].requestId == r
  }

  /** An id in the public map names no live call of another adapter. */
  ghost predicate ForeignApart(b: State<Owner>, byPublic: map<string, SessionKey>) {
    forall p | p in byPublic && p in b.publicIndex.items && b.publicIndex.items[p] in b.entries.items ::
      b.entries.items[b.publicIndex.items[p]].provider == Claude
  }

  /** Live public ids were minted and not claimed. */
  ghost predicate IdsOk(index: map<string, string>, minted: set<string>, claims: map<string, (Profile, string)>) {
    && (forall p :: p in index ==> p in minted && p !in claims)
    && claims.Keys <= minted
  }

  /** No two parked frames share a public id. */
  ghost predicate ParkedApart(sessions: map<SessionKey, Session>) {
    forall a, f, b, g | a in sessions && b in sessions && f in sessions[a].parkedAs && g in sessions[b].parkedAs ::
      sessions[a].parkedAs[f] == sessions[b].parkedAs[g] ==> a == b && f == g
  }

  ghost predicate KeysOk(sessions: map<SessionKey, Session>, used: set<string>) {
    forall k :: k in sessions ==> k in used && '|' !in k && k != ""
  }

  ghost predicate SessionsOk(sessions: map<SessionKey, Session>, claims: map<string, (Profile, string)>,
      minted: set<string>) {
    forall k :: k in sessions ==> SessionOk(sessions[k], claims, minted)
  }

  ghost predicate Core(w: World) {
    && Valid(w.sh.broker) && EntriesOk(w)
    && PublicOk(w.sh.byPublic, w.sessions) && |w.sh.byPublic| <= w.sh.maxLive
    && ForeignApart(w.sh.broker, w.sh.byPublic)
    && RequestOk(w.sh.byRequest, w.sessions)
    && IdsOk(w.sh.broker.publicIndex.items, w.minted, w.claims)
    && ParkedApart(w.sessions) && KeysOk(w.sessions, w.used)
    && SessionsOk(w.sessions, w.claims, w.minted)
  }

  /** Nothing refers to a terminated session, and it waits for nothing. */
  ghost predicate Retired(k: SessionKey, s: Session, sh: Shared) {
    && s.publicId == None && !s.ttl
    && (forall p :: p in sh.byPublic ==> sh.byPublic[p] != k)
    && (forall r :: r in sh.byRequest ==> sh.byRequest[r] != k)
    && NoEntryFor(sh.broker.entries.items, k)
  }

  ghost predicate NoEntryFor(entries: map<string, Entry<Owner>>, k: SessionKey) {
    forall id :: id in entries ==> !(entries[id].provider == Claude && entries[id].sessionId == k)
  }

  ghost predicate TerminatedAreRetired(w: World) {
    forall k :: k in w.sessions && w.sessions[k].terminated ==> Retired(k, w.sessions[k], w.sh)
  }
}
