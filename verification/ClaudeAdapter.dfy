/**
 * The adapter as the objects it is: live sessions whose fields change step by step, the two session
 * maps, and the shared broker. Each method is proved to do what `ClaudeSpec` says, and what that does
 * to a session over whole runs is the matter of `ClaudeResults`, `ClaudeContinuations` and
 * `ClaudeAnswers`. The loops over the results of a request are here; the step system sees them as
 * one claim after the other.
 */
module ClaudeAdapters {
  import opened Options
  import opened BrokerKeys
  import opened BrokerSpec
  import opened BrokerRuns
  import opened DeferredToolBrokers
  import opened BoundedQueues
  import opened BridgeControl
  import opened ClaudeSpec

  class LiveClaudeSession {
    const sessionKey: SessionKey
    const profile: Profile
    const control: BridgeControlServer
    const toolCalls: BoundedQueue<FrameId>
    var requestId: string
    var gateParked: bool
    var parkedRequestId: Option<FrameId>
    var publicToolCallId: Option<string>
    var ttlTimer: bool
    var terminated: bool
    var toolCallPromise: Option<nat>
    // where the drain stands, and the two tapes of the model
    ghost var drain: Drain
    ghost var seen: set<FrameId>
    ghost var parkedAs: map<FrameId, string>

    /** The only promise ever outstanding is the last one taken from the queue. */
    ghost predicate Valid()
      reads this`toolCallPromise, toolCalls
    {
      && toolCalls.Valid() && toolCalls.maxSize == QUEUE_SIZE
      && (toolCallPromise == None ==> toolCalls.waiters == [])
      && (toolCallPromise.Some? ==>
            && toolCalls.nextTicket == toolCallPromise.value + 1
            && toolCalls.waiters == if toolCallPromise.value in toolCalls.delivered then []
                else [toolCallPromise.value])
    }

    ghost function Handing(): Handoff
      reads this`toolCallPromise, toolCalls
    {
      if toolCallPromise == None then NoPromise
      else if toolCallPromise.value in toolCalls.delivered then Ready(toolCalls.delivered[toolCallPromise.value])
      else Waiting
    }

    ghost function Model(): Session
      reads this, toolCalls, control
    {
      Session(profile, requestId, drain, Handing(), toolCalls.items, gateParked, parkedRequestId, publicToolCallId,
              ttlTimer, terminated, control.Model(), seen, parkedAs)
    }

    constructor (sessionKey: SessionKey, profile: Profile, token: string)
      ensures Valid() && fresh(control) && fresh(toolCalls)
      ensures this.sessionKey == sessionKey && this.profile == profile && control.token == token
      ensures Model() == Session(profile, sessionKey, Busy, NoPromise, [], false, None, None, false, false,
                                 Control(map[], {}, false, []), {}, map[])
    {
      this.sessionKey, this.profile, requestId := sessionKey, profile, sessionKey;
      control := new BridgeControlServer(token);
      toolCalls := new BoundedQueue(QUEUE_SIZE);
      gateParked, parkedRequestId, publicToolCallId, ttlTimer, terminated, toolCallPromise := false, None, None,
          false, false, None;
      drain, seen, parkedAs := Busy, {}, map[];
    }

    method HandleToolCall(f: FrameId)
      requires Valid()
      modifies this`drain, toolCalls, control`pending, control`written
      ensures Valid() && Model() == OnToolCall(old(Model()), f)
    {
      hide Release, BridgeControlServer.Model;
      if gateParked {
        var _ := control.Reject(f);
        return;
      }
      var ok := toolCalls.TryPush(f);
      if ok {
        if old(Handing()) == Waiting && drain == Racing {
          drain := Resuming;
        }
      } else {
        var _ := control.Reject(f);
      }
    }

    /**
     * A line of the control channel: an authenticated, complete frame arrives; anything else only touches the channel.
     */
    method HandleLine(socket: Socket, line: Line)
      requires Valid()
      modifies this`drain, this`seen, toolCalls, control
      ensures Valid()
      ensures var heard := line.Frame? && line.id.Some? && line.name.Some?
                           && (socket in old(control.authenticated) || line.token == Some(control.token));
              Model() == if heard then Arrive(old(Model()), line.id.value, socket)
                         else old(Model()).(control :=
                             OnLine(old(control.Model()), old(control.authenticated), control.token, socket, line).0)
    {
      hide OnToolCall, LiveClaudeSession.Valid, LiveClaudeSession.Handing;
      var outcome := control.HandleLine(socket, line);
      if line.Frame? && line.id.Some? && line.name.Some? && (socket in old(control.authenticated)
          || line.token == Some(control.token)) {
        seen := seen + {line.id.value};
      }
      if outcome.Surfaced? {
        HandleToolCall(outcome.frame);
      }
    }

    /** The top of the drain loop: take a promise unless one is outstanding. */
    method RequestHandoff()
      requires Valid()
      modifies this`drain, this`toolCallPromise, toolCalls
      ensures Valid() && Model() == Loop(old(Model()))
    {
      if toolCallPromise == None {
        var ticket := toolCalls.Next();
        toolCallPromise := Some(ticket);
      }
      drain := if Handing() == Waiting then Racing else Resuming;
    }
  }

  /** A tool result of a continuation request: the public id it answers, and its text. */
  datatype ToolResult = ToolResult(publicId: string, text: string)

  /** The first result whose claim resolves, whose call it is, and the broker after the claims up to it. */
  ghost function FirstClaimed(b: State<Owner>, results: seq<ToolResult>,
      profile: Profile): (r: (State<Owner>, Option<(Owner, nat)>))
    requires Valid(b)
    ensures Valid(r.0) && MapsValid(r.0)
    ensures r.1.Some? ==> r.1.value.1 < |results|
    decreases |results|
  {
    hide Valid, MapsValid, ClaimByPublicId;
    ValidHasMaps(b);
    if results == [] then (b, None)
    else
      ClaimKeeps(b, results[0].publicId, Some(profile));
      var (b', claim) := ClaimByPublicId(b, results[0].publicId, Some(profile));
      ValidHasMaps(b');
      if claim.outcome == OutResolved && claim.context.Some? then (b', Some((claim.context.value, 0)))
      else Shifted(FirstClaimed(b', results[1..], profile), 1)
  }

  lemma ValidHasMaps(b: State<Owner>)
    requires Valid(b)
    ensures MapsValid(b)
  {
    ValidMaps(b);
    hide Valid, MapsValid;
  }

  /**
   * What a claimed result does to the shared maps and to all live sessions: one session goes on, or none when the call
   * was foreign.
   */
  ghost predicate ContinuedWith(sh: Shared, sh': Shared, before: map<SessionKey, Session>,
      after: map<SessionKey, Session>,
                                owner: Owner, result: ToolResult, requestId: string)
    requires MapsValid(sh.broker)
  {
    match owner
    case OtherAdapter => sh' == ContinueForeign(sh, result.publicId, requestId) && after == before
    case ClaudeSession(key) =>
      && key in before && key in after
      && (sh', after[key]) == Continue(sh, key, before[key], result.publicId, requestId, result.text)
      && after == before[key := after[key]]
  }

  /** What a continuation request does to them. */
  ghost predicate ContinuedAs(sh: Shared, sh': Shared, before: map<SessionKey, Session>,
      after: map<SessionKey, Session>,
                              results: seq<ToolResult>, requestId: string, profile: Profile)
    requires Valid(sh.broker)
  {
    var (b, found) := FirstClaimed(sh.broker, results, profile);
    if found == None then sh' == sh.(broker := b) && after == before
    else ContinuedWith(sh.(broker := b), sh', before, after, found.value.0, results[found.value.1], requestId)
  }

  lemma Foreign(sh: Shared, sessions: map<SessionKey, Session>, result: ToolResult, requestId: string)
    requires MapsValid(sh.broker)
    ensures ContinuedWith(sh, ContinueForeign(sh, result.publicId, requestId), sessions, sessions, OtherAdapter,
        result, requestId)
  {
    hide MapsValid, ContinueForeign;
  }

  lemma Assembled(sh: Shared, sh': Shared, before: map<SessionKey, Session>, after: map<SessionKey, Session>,
                  key: SessionKey, result: ToolResult, requestId: string)
    requires MapsValid(sh.broker) && key in before && after.Keys == before.Keys
    requires forall k :: k in before && k != key ==> after[k] == before[k]
    requires (sh', after[key]) == Continue(sh, key, before[key], result.publicId, requestId, result.text)
    ensures ContinuedWith(sh, sh', before, after, ClaudeSession(key), result, requestId)
  {
    hide MapsValid, Continue;
  }

  ghost predicate ContextsAmong(b: State<Owner>, keys: set<SessionKey>) {
    forall id :: id in b.entries.items ==> ContextAmong(b.entries.items[id].context, keys)
  }

  predicate ContextAmong(context: Option<Owner>, keys: set<SessionKey>) {
    context.Some? && context.value.ClaudeSession? ==> context.value.key in keys
  }

  function Shifted(r: (State<Owner>, Option<(Owner, nat)>), n: nat): (State<Owner>, Option<(Owner, nat)>) {
    (r.0, if r.1.Some? then Some((r.1.value.0, r.1.value.1 + n)) else None)
  }

  lemma FirstClaimedStep(b: State<Owner>, results: seq<ToolResult>, i: nat, profile: Profile)
    requires Valid(b) && i < |results| && MapsValid(b)
    ensures Valid(ClaimByPublicId(b, results[i].publicId, Some(profile)).0)
    ensures var (b', claim) := ClaimByPublicId(b, results[i].publicId, Some(profile));
            Shifted(FirstClaimed(b, results[i..], profile), i)
              == if claim.outcome == OutResolved && claim.context.Some? then (b', Some((claim.context.value, i)))
                 else Shifted(FirstClaimed(b', results[i + 1..], profile), i + 1)
  {
    hide Valid, MapsValid, ClaimByPublicId;
    ClaimKeeps(b, results[i].publicId, Some(profile));
    assert results[i..][0] == results[i] && results[i..][1..] == results[i + 1..];
  }

  lemma ClaimKeepsContexts(b: State<Owner>, pid: string, profile: Profile, keys: set<SessionKey>)
    requires Valid(b) && MapsValid(b) && ContextsAmong(b, keys)
    ensures ContextsAmong(ClaimByPublicId(b, pid, Some(profile)).0, keys)
    ensures var claim := ClaimByPublicId(b, pid, Some(profile)).1;
            claim.outcome == OutResolved ==> ContextAmong(claim.context, keys)
  {
    ValidMaps(b);
    IndexedIsLive(b);
    hide Valid, MapsValid, ClaimByPublicId, ContextAmong;
    ClaimIsExact(b, pid, Some(profile));
  }

  lemma {:induction false} FirstClaimedAmong(b: State<Owner>, results: seq<ToolResult>, profile: Profile,
      keys: set<SessionKey>)
    requires Valid(b) && ContextsAmong(b, keys)
    ensures var found := FirstClaimed(b, results, profile).1;
            found.Some? ==> ContextAmong(Some(found.value.0), keys)
    decreases |results|
  {
    hide Valid, MapsValid, ContextsAmong, ClaimByPublicId;
    if results != [] {
      ValidHasMaps(b);
      ClaimKeeps(b, results[0].publicId, Some(profile));
      ClaimKeepsContexts(b, results[0].publicId, profile, keys);
      FirstClaimedAmong(ClaimByPublicId(b, results[0].publicId, Some(profile)).0, results[1..], profile, keys);
    }
  }

  lemma IndexedIsLive(b: State<Owner>)
    requires Valid(b)
    ensures forall p :: p in b.publicIndex.items ==> b.publicIndex.items[p] in b.entries.items
  {
    hide MapsValid;
  }

  /** A session map as the model sees it: each session by its key. */
  ghost function KeysIn(m: map<string, LiveClaudeSession>): map<string, SessionKey> {
    map k | k in m :: m[k].sessionKey
  }

  lemma KeysSize(m: map<string, LiveClaudeSession>)
    ensures |KeysIn(m)| == |m|
  {
    assert KeysIn(m).Keys == m.Keys;
    assert |KeysIn(m).Keys| == |m.Keys|;
  }

  lemma KeyLost(m: map<string, LiveClaudeSession>, k: string)
    ensures KeysIn(m - {k}) == KeysIn(m) - {k}
  {
    var a, b := KeysIn(m - {k}), KeysIn(m) - {k};
    assert forall x :: x in a <==> x in b;
    assert forall x :: x in a ==> a[x] == b[x];
  }

  lemma KeyGained(m: map<string, LiveClaudeSession>, k: string, s: LiveClaudeSession)
    ensures KeysIn(m[k := s]) == KeysIn(m)[k := s.sessionKey]
  {
    var a, b := KeysIn(m[k := s]), KeysIn(m)[k := s.sessionKey];
    assert forall x :: x in a <==> x in b;
    assert forall x :: x in a ==> a[x] == b[x];
  }

  class ClaudeAdapter {
    const maxLiveSessions: nat
    const broker: DeferredToolBroker<Owner>
    var sessions: map<string, LiveClaudeSession>
    var sessionsByRequest: map<string, LiveClaudeSession>
    // what a broker context points at
    var live: map<SessionKey, LiveClaudeSession>

    ghost function Model(): Shared
      reads this, broker
    {
      Shared(broker.Model(), KeysIn(sessions), KeysIn(sessionsByRequest), maxLiveSessions)
    }

    constructor (broker: DeferredToolBroker<Owner>, maxLiveSessions: nat)
      ensures this.broker == broker && this.maxLiveSessions == maxLiveSessions
      ensures Model() == Shared(broker.Model(), map[], map[], maxLiveSessions) && live == map[]
    {
      this.broker, this.maxLiveSessions := broker, maxLiveSessions;
      sessions, sessionsByRequest, live := map[], map[], map[];
    }

    method CloseSession(s: LiveClaudeSession)
      requires broker.Ready() && s.Valid()
      modifies this`sessions, this`sessionsByRequest, broker, s, s.control`pending, s.control`written
      ensures broker.Ready() && s.Valid()
      ensures (Model(), s.Model()) == Close(old(Model()), s.sessionKey, old(s.Model()))
    {
      hide BrokerSpec.Valid, MapsValid, CancelScope, KeysIn, Release, LiveClaudeSession.Valid,
          LiveClaudeSession.Handing;
      ReadyMaps();
      if s.terminated {
        return;
      }
      s.terminated := true;
      s.ttlTimer := false;
      if s.parkedRequestId.Some? {
        var _ := s.control.Reject(s.parkedRequestId.value);
        s.parkedRequestId := None;
      }
      Forget(s);
      broker.Cancel(ScopeOf(s.sessionKey));
    }

    /** Both maps let go of the session. */
    method Forget(s: LiveClaudeSession)
      requires s.Valid()
      modifies this`sessions, this`sessionsByRequest, s`publicToolCallId
      ensures s.Valid()
      ensures var pid := old(s.publicToolCallId);
              Model() == old(Model()).(byRequest := old(Model()).byRequest - {s.requestId},
                                       byPublic := if pid.Some? then old(Model()).byPublic - {pid.value}
                                           else old(Model()).byPublic)
      ensures s.Model() == old(s.Model()).(publicId := None)
    {
      hide KeysIn, LiveClaudeSession.Valid, LiveClaudeSession.Handing;
      KeyLost(sessionsByRequest, s.requestId);
      sessionsByRequest := sessionsByRequest - {s.requestId};
      if s.publicToolCallId.Some? {
        KeyLost(sessions, s.publicToolCallId.value);
        sessions := sessions - {s.publicToolCallId.value};
        s.publicToolCallId := None;
      }
    }

    lemma ReadyMaps()
      requires broker.Ready()
      ensures MapsValid(broker.Model())
    {
      hide MapsValid;
      ValidMaps(broker.Model());
    }

    method RefuseToolCall(s: LiveClaudeSession, f: FrameId)
      requires broker.Ready() && s.Valid()
      modifies this`sessions, this`sessionsByRequest, broker, s, s.control`pending, s.control`written
      ensures broker.Ready() && s.Valid()
      ensures (Model(), s.Model()) == Close(old(Model()), s.sessionKey, Rejected(old(s.Model()), f))
    {
      hide BrokerSpec.Valid, MapsValid, Close, KeysIn, Release;
      ReadyMaps();
      var _ := s.control.Reject(f);
      CloseSession(s);
    }

    method ParkToolCall(s: LiveClaudeSession, f: FrameId, publicId: string)
      requires broker.Ready() && s.Valid()
      modifies this`sessions, this`sessionsByRequest, broker, s, s.control`pending, s.control`written
      ensures broker.Ready() && s.Valid()
      ensures (Model(), s.Model()) == Park(old(Model()), s.sessionKey, old(s.Model()), f, publicId)
    {
      hide BrokerSpec.Valid, MapsValid, Create, Close, KeysIn, Rejected, LiveClaudeSession.Valid,
          LiveClaudeSession.Handing;
      ReadyMaps();
      KeyGained(sessions, publicId, s);
      KeysSize(sessions);
      if s.gateParked {
        RefuseToolCall(s, f);
        return;
      }
      if |sessions| >= maxLiveSessions {
        RefuseToolCall(s, f);
        return;
      }
      TryToPark(s, f, publicId);
    }

    lemma ParkOffers(sh: Shared, key: SessionKey, s: Session, f: FrameId, publicId: string)
      requires MapsValid(sh.broker) && !s.gate && |sh.byPublic| < sh.maxLive
      ensures var (b, refusal) := Create(sh.broker, KeyFor(key, s, publicId), Some(ClaudeSession(key)), false);
              && (refusal.Some? ==> MapsValid(b))
              && (refusal.Some? ==>
                    Park(sh, key, s, f, publicId)
                         == Close(sh.(broker := b), key,
                             Rejected(s.(gate := false, parked := None, publicId := None), f)))
              && (refusal == None ==>
                    Park(sh, key, s, f, publicId)
                      == (sh.(broker := b, byPublic := sh.byPublic[publicId := key]),
                          s.(gate := true, parked := Some(f), publicId := Some(publicId), ttl := true,
                              parkedAs := s.parkedAs[f := publicId])))
    {
      hide Close, Rejected, KeyOf;
    }

    /** Shuts the gate and asks the broker for an entry. */
    method OfferToBroker(s: LiveClaudeSession, f: FrameId, publicId: string) returns (refusal: Option<Refusal>)
      requires broker.Ready() && s.Valid()
      modifies broker, s`gateParked, s`parkedRequestId, s`publicToolCallId
      ensures broker.Ready() && s.Valid()
      ensures (broker.Model(), refusal)
           == Create(old(broker.Model()), KeyFor(s.sessionKey, old(s.Model()), publicId),
               Some(ClaudeSession(s.sessionKey)), false)
      ensures s.Model() == old(s.Model()).(gate := true, parked := Some(f), publicId := Some(publicId))
    {
      hide BrokerSpec.Valid, MapsValid, Create, LiveClaudeSession.Valid, LiveClaudeSession.Handing,
          DeferredToolBroker.Model;
      s.gateParked := true;
      s.parkedRequestId := Some(f);
      s.publicToolCallId := Some(publicId);
      refusal := broker.CreatePendingCall(
        BrokerKey(Some(s.profile), Claude, s.sessionKey, None, publicId, Some(publicId)),
            Some(ClaudeSession(s.sessionKey)), false);
    }

    method WithdrawCall(s: LiveClaudeSession, f: FrameId)
      requires broker.Ready() && s.Valid()
      modifies this`sessions, this`sessionsByRequest, broker, s, s.control`pending, s.control`written
      ensures broker.Ready() && s.Valid()
      ensures (Model(), s.Model())
           == Close(old(Model()), s.sessionKey,
               Rejected(old(s.Model()).(gate := false, parked := None, publicId := None), f))
    {
      hide BrokerSpec.Valid, MapsValid, Close, Rejected, KeysIn, LiveClaudeSession.Valid, LiveClaudeSession.Handing,
          DeferredToolBroker.Model;
      s.gateParked := false;
      s.parkedRequestId := None;
      s.publicToolCallId := None;
      assert s.Model() == old(s.Model()).(gate := false, parked := None, publicId := None);
      RefuseToolCall(s, f);
    }

    /** Past the two guards: the broker decides. */
    method TryToPark(s: LiveClaudeSession, f: FrameId, publicId: string)
      requires broker.Ready() && s.Valid() && !s.gateParked && |sessions| < maxLiveSessions
      modifies this`sessions, this`sessionsByRequest, broker, s, s.control`pending, s.control`written
      ensures broker.Ready() && s.Valid()
      ensures (Model(), s.Model()) == Park(old(Model()), s.sessionKey, old(s.Model()), f, publicId)
    {
      hide BrokerSpec.Valid, MapsValid, Create, Close, Park, KeysIn, Rejected, LiveClaudeSession.Valid,
          LiveClaudeSession.Handing,
           DeferredToolBroker.Model, BridgeControlServer.Model;
      ReadyMaps();
      KeyGained(sessions, publicId, s);
      KeysSize(sessions);
      ParkOffers(Model(), s.sessionKey, s.Model(), f, publicId);
      var refusal := OfferToBroker(s, f, publicId);
      if refusal.Some? {
        assert s.Model().(gate := false, parked := None, publicId := None)
            == old(s.Model()).(gate := false, parked := None, publicId := None);
        WithdrawCall(s, f);
        return;
      }
      sessions := sessions[publicId := s];
      s.ttlTimer := true;
      s.parkedAs := s.parkedAs[f := publicId];
    }

    /** The drain resumes on a call it was handed. */
    method ResumeOnCall(s: LiveClaudeSession, publicId: string)
      requires broker.Ready() && s.Valid() && s.Handing().Ready?
      modifies this`sessions, this`sessionsByRequest, broker, s, s.control`pending, s.control`written
      ensures broker.Ready() && s.Valid()
      ensures (Model(), s.Model()) == Resume(old(Model()), s.sessionKey, old(s.Model()), publicId)
    {
      hide BrokerSpec.Valid, MapsValid, Park;
      var f := s.toolCalls.delivered[s.toolCallPromise.value];
      s.toolCallPromise := None;
      s.drain := Idle;
      ParkToolCall(s, f, publicId);
    }

    /** The session leaves the public map and answers to this request from now on. */
    method Rebind(s: LiveClaudeSession, publicId: string, requestId: string)
      requires s.Valid()
      modifies this`sessions, this`sessionsByRequest, s`publicToolCallId, s`requestId, s`drain
      ensures s.Valid()
      ensures Model() == old(Model()).(byPublic := old(Model()).byPublic - {publicId},
                                       byRequest := (old(Model()).byRequest - {old(s.requestId)})[requestId :=
                                           s.sessionKey])
      ensures s.Model() == old(s.Model()).(publicId := None, requestId := requestId, drain := Busy)
    {
      hide KeysIn, LiveClaudeSession.Valid, LiveClaudeSession.Handing;
      KeyLost(sessions, publicId);
      KeyLost(sessionsByRequest, s.requestId);
      KeyGained(sessionsByRequest - {s.requestId}, requestId, s);
      sessions := sessions - {publicId};
      s.publicToolCallId := None;
      sessionsByRequest := sessionsByRequest - {s.requestId};
      s.requestId := requestId;
      sessionsByRequest := sessionsByRequest[requestId := s];
      s.drain := Busy;
    }

    /**
     * A result claimed for this session: deliver the text to the parked frame and, if it was still pending, reopen the
     * gate.
     */
    method DeliverResult(s: LiveClaudeSession, result: ToolResult, requestId: string)
      requires s.Valid()
      modifies this`sessions, this`sessionsByRequest, s, s.control`pending, s.control`written
      ensures s.Valid()
      ensures (Model(), s.Model()) == Continue(old(Model()), s.sessionKey, old(s.Model()), result.publicId,
          requestId, result.text)
    {
      hide KeysIn, Deliver, LiveClaudeSession.Valid, LiveClaudeSession.Handing, DeferredToolBroker.Model;
      Rebind(s, result.publicId, requestId);
      AnswerParked(s, result.text);
    }

    method AnswerParked(s: LiveClaudeSession, text: string)
      requires s.Valid()
      modifies s`parkedRequestId, s`gateParked, s`ttlTimer, s.control`pending, s.control`written
      ensures s.Valid() && s.Model() == Deliver(old(s.Model()), text)
    {
      hide Release, LiveClaudeSession.Valid, LiveClaudeSession.Handing;
      if s.parkedRequestId.Some? {
        var parked := s.parkedRequestId.value;
        s.parkedRequestId := None;
        var delivered := s.control.Resolve(parked, text);
        if delivered {
          s.gateParked := false;
          s.ttlTimer := false;
        }
      }
    }

    /** Sessions are found under their own key, and no two share a control channel or a queue. */
    ghost predicate Apart()
      reads this`live
    {
      && (forall k :: k in live ==> live[k].sessionKey == k)
      && (forall j, k | j in live && k in live && j != k ::
            live[j].control != live[k].control && live[j].toolCalls != live[k].toolCalls)
    }

    ghost function SessionsNow(): map<SessionKey, Session>
      reads this`live, live.Values, set k | k in live :: live[k].toolCalls, set k | k in live :: live[k].control
    {
      map k | k in live :: live[k].Model()
    }

    ghost predicate SessionsValid()
      reads this`live, live.Values, set k | k in live :: live[k].toolCalls
    {
      forall k :: k in live ==> live[k].Valid()
    }

    /** Claims one result after the other until one resolves. */
    method ClaimFirst(results: seq<ToolResult>, profile: Profile) returns (found: Option<(Owner, nat)>)
      requires broker.Ready()
      modifies broker
      ensures broker.Ready() && (broker.Model(), found) == FirstClaimed(old(broker.Model()), results, profile)
    {
      hide BrokerSpec.Valid, MapsValid, ClaimByPublicId, DeferredToolBroker.Model;
      assert results[0..] == results;
      for i := 0 to |results|
        invariant broker.Ready()
        invariant FirstClaimed(old(broker.Model()), results, profile)
            == Shifted(FirstClaimed(broker.Model(), results[i..], profile), i)
      {
        ReadyMaps();
        FirstClaimedStep(broker.Model(), results, i, profile);
        var claim := broker.ClaimByPublicToolCallId(results[i].publicId, Some(profile));
        if claim.outcome == OutResolved && claim.context.Some? {
          return Some((claim.context.value, i));
        }
      }
      found := None;
    }

    /**
     * Another adapter's call was claimed: what was bound to the request is closed at once, in the scope of the whole
     * provider.
     */
    method CloseForeign(publicId: string, requestId: string)
      requires broker.Ready()
      modifies this`sessions, this`sessionsByRequest, broker
      ensures broker.Ready() && Model() == ContinueForeign(old(Model()), publicId, requestId)
    {
      hide BrokerSpec.Valid, MapsValid, CancelScope, KeysIn;
      ReadyMaps();
      KeyLost(sessions, publicId);
      KeyLost(sessionsByRequest, requestId);
      sessions := sessions - {publicId};
      sessionsByRequest := sessionsByRequest - {requestId};
      broker.Cancel(EveryClaude());
    }

    /** The claimed session goes on under this request; no other session is touched. */
    method ContinueSession(s: LiveClaudeSession, key: SessionKey, result: ToolResult, requestId: string)
      requires Apart() && SessionsValid() && MapsValid(broker.Model()) && key in live && live[key] == s
      modifies this`sessions, this`sessionsByRequest, s, s.control`pending, s.control`written
      ensures ContinuedWith(old(Model()), Model(), old(SessionsNow()), SessionsNow(), ClaudeSession(key),
          result, requestId)
    {
      hide MapsValid, ContinuedWith, KeysIn, Continue, LiveClaudeSession.Valid,
           LiveClaudeSession.Handing, DeferredToolBroker.Model, BridgeControlServer.Model, LiveClaudeSession.Model;
      DeliverResult(s, result, requestId);
      forall k | k in live && k != key ensures live[k].Model() == old(live[k].Model()) {
        assert live[k] != s && live[k].control != s.control && live[k].toolCalls != s.toolCalls;
      }
      Assembled(old(Model()), Model(), old(SessionsNow()), SessionsNow(), key, result, requestId);
    }

    /** What was claimed goes on; another adapter's call only closes things. */
    method ContinueWith(owner: Owner, result: ToolResult,
        requestId: string) returns (session: Option<LiveClaudeSession>)
      requires broker.Ready() && Apart() && SessionsValid() && MapsValid(broker.Model())
      requires ContextAmong(Some(owner), live.Keys)
      modifies this`sessions, this`sessionsByRequest, broker, live.Values, set k | k in live :: live[k].control
      ensures broker.Ready()
      ensures ContinuedWith(old(Model()), Model(), old(SessionsNow()), SessionsNow(), owner, result, requestId)
    {
      hide BrokerSpec.Valid, MapsValid, ContinuedWith, KeysIn, Continue, ContinueForeign, LiveClaudeSession.Valid,
           LiveClaudeSession.Handing, DeferredToolBroker.Model, BridgeControlServer.Model, LiveClaudeSession.Model;
      if owner == OtherAdapter {
        CloseForeign(result.publicId, requestId);
        assert SessionsNow() == old(SessionsNow());
        Foreign(old(Model()), SessionsNow(), result, requestId);
        session := None;
      } else {
        ContinueSession(live[owner.key], owner.key, result, requestId);
        session := Some(live[owner.key]);
      }
    }

    /**
     * A continuation request: the first result that can be claimed here continues its session, and
     * the later results are left alone. No other session is touched. If the call was another adapter's,
     * no session continues, and every parked call of this adapter is cancelled.
     */
    method ContinueRun(results: seq<ToolResult>, requestId: string,
        profile: Profile) returns (session: Option<LiveClaudeSession>)
      requires broker.Ready() && Apart() && SessionsValid() && ContextsAmong(broker.Model(), live.Keys)
      modifies this`sessions, this`sessionsByRequest, broker, live.Values, set k | k in live :: live[k].control
      ensures broker.Ready()
      ensures ContinuedAs(old(Model()), Model(), old(SessionsNow()), SessionsNow(), results, requestId, profile)
    {
      hide BrokerSpec.Valid, MapsValid, FirstClaimed, ContextsAmong, ContextAmong, ContinuedWith, KeysIn,
           LiveClaudeSession.Valid, LiveClaudeSession.Handing, DeferredToolBroker.Model, BridgeControlServer.Model,
               LiveClaudeSession.Model;
      FirstClaimedAmong(broker.Model(), results, profile, live.Keys);
      var found := ClaimFirst(results, profile);
      assert SessionsNow() == old(SessionsNow());
      if found == None {
        session := None;
      } else {
        ReadyMaps();
        session := ContinueWith(found.value.0, results[found.value.1], requestId);
      }
    }

    /** Cancelling a request closes the session it drives, if any. */
    method Cancel(requestId: string)
      requires broker.Ready() && (requestId in sessionsByRequest ==> sessionsByRequest[requestId].Valid())
      modifies this`sessions, this`sessionsByRequest, broker,
               if requestId in sessionsByRequest then {sessionsByRequest[requestId]} else {},
               if requestId in sessionsByRequest then {sessionsByRequest[requestId].control} else {}
      ensures broker.Ready()
      ensures requestId !in old(sessionsByRequest) ==> Model() == old(Model())
      ensures requestId in old(sessionsByRequest) ==>
                var s := old(sessionsByRequest[requestId]);
                s.Valid() && (Model(), s.Model()) == Close(old(Model()), s.sessionKey, old(s.Model()))
    {
      hide BrokerSpec.Valid, Close, KeysIn;
      if requestId in sessionsByRequest {
        CloseSession(sessionsByRequest[requestId]);
      }
    }
  }
}
