/**
 * What becomes of each request the Codex app-server sends: declined on the spot, handed to the pump
 * that waits for it, refused there, or parked in the broker until a client claims it. Every
 * interleaving of these steps, with deadlines, cancellations and other adapters, is a run.
 */
module CodexWire {
  import opened Options
  import opened BrokerKeys
  import opened BrokerSpec
  import opened BrokerRuns
  import opened BrokerShrinking
  import CodexClient

  type WireId = nat

  datatype Kind = Approval | ToolCall | OtherRequest

  /** A server request; a field that is missing or not a string is `None`. */
  datatype Request = Request(
    id: WireId,
    kind: Kind,
    threadId: Option<string>,
    turnId: Option<string>,
    callId: Option<string>,
    tool: Option<string>,
    ns: Option<string>,
    hasArguments: bool)

  datatype Answer = Decline | Failure | Success(text: string)

  datatype Reply = Reply(id: WireId, answer: Answer)

  datatype ToolWaiter = ToolWaiter(id: nat, scope: CodexClient.Scope)

  /** Whose parked call a broker entry is. */
  datatype Call = Wire(id: WireId) | ForeignCall

  datatype Wires = Wires(
    broker: State<Call>,
    waiters: seq<ToolWaiter>,
    nextWaiter: nat,
    // requests a waiter was resolved with, until its pump looks
    offered: map<nat, Request>,
    stopped: bool,
    replies: seq<Reply>,
    // tapes: requests seen, public ids spent, the id and profile each request was parked under, and every claim
    seen: set<WireId>,
    minted: set<string>,
    parkedAs: map<WireId, (string, Profile)>,
    claims: map<string, (Profile, string)>)

  const CLIENT_NAMESPACE := "cmm_client"

  predicate Awaits(w: ToolWaiter, r: Request) {
    && (w.scope.threadId.Some? ==> w.scope.threadId == r.threadId)
    && (w.scope.turnId.Some? ==> w.scope.turnId == r.turnId)
  }

  function FirstAwaiting(waiters: seq<ToolWaiter>, r: Request): (i: nat)
    ensures i <= |waiters|
    ensures i < |waiters| ==> Awaits(waiters[i], r)
    ensures forall j :: 0 <= j < i ==> !Awaits(waiters[j], r)
  {
    if waiters == [] || Awaits(waiters[0], r) then 0 else 1 + FirstAwaiting(waiters[1..], r)
  }

  /** `sendRaw` with an answer: nothing is written once the client has stopped. */
  function Answered(s: Wires, id: WireId, answer: Answer): Wires {
    if s.stopped then s else s.(replies := s.replies + [Reply(id, answer)])
  }

  /** `handleServerRequest`. */
  function Receive(s: Wires, r: Request): Wires {
    var s1 := s.(seen := s.seen + {r.id});
    if r.kind != ToolCall then Answered(s1, r.id, Decline)
    else
      var i := FirstAwaiting(s.waiters, r);
      if i == |s.waiters| then Answered(s1, r.id, Failure)
      else s1.(waiters := s.waiters[..i] + s.waiters[i + 1..], offered := s.offered[s.waiters[i].id := r])
  }

  predicate Present(field: Option<string>) {
    field.Some? && field.value != ""
  }

  /**
   * What a pump accepts: complete identity, the client's own namespace, a declared tool, and an authenticated profile.
   */
  predicate Acceptable(r: Request, declared: set<string>, profile: Option<Profile>) {
    && Present(r.callId) && Present(r.tool) && Present(r.threadId) && Present(r.turnId) && r.hasArguments
    && r.ns == Some(CLIENT_NAMESPACE) && r.tool.value in declared && profile.Some?
  }

  /** `handleExternalToolCall` for the request a pump's waiter was resolved with. */
  function Handle(s: Wires, waiter: nat, threadId: string, turnId: string, declared: set<string>,
      profile: Option<Profile>,
                  pid: string, aborted: bool): Wires
    requires MapsValid(s.broker) && waiter in s.offered
  {
    var r := s.offered[waiter];
    var s1 := s.(offered := s.offered - {waiter});
    if !Acceptable(r, declared, profile) then Answered(s1, r.id, Failure)
    else
      var key := BrokerKey(profile, Chatgpt, threadId, Some(turnId), pid, Some(pid));
      var (broker, refusal) := Create(s.broker, key, Some(Wire(r.id)), aborted);
      var s2 := s1.(broker := broker, minted := s.minted + {pid});
      if refusal.Some? then s2 else s2.(parkedAs := s.parkedAs[r.id := (pid, profile.value)])
  }

  /** The continuation branch of `run`: a resolved claim answers the original request. */
  function ClaimStep(s: Wires, pid: string, profile: Profile, text: string): Wires
    requires MapsValid(s.broker)
  {
    var (broker, claim) := ClaimByPublicId(s.broker, pid, Some(profile));
    var s1 := s.(broker := broker);
    if claim.outcome == OutResolved && claim.context.Some? && claim.context.value.Wire? then
      Answered(s1, claim.context.value.id, Success(text)).(claims := s.claims[pid := (profile, text)])
    else s1
  }

  datatype Step =
    | Arrives(r: Request)
    | ArmWaiter(scope: CodexClient.Scope)
    | DropWaiters(keep: set<nat>)
    | PumpLooks(waiter: nat, threadId: string, turnId: string, declared: set<string>, caller: Option<Profile>,
        pid: string, aborted: bool)
    | PumpGone(waiter: nat)
    | Claimed(pid: string, profile: Profile, text: string)
    | Fails(id: string, how: Ending)
    | Cancels(filter: Filter)
    | OtherClaims(pid: string, profile: Profile)
    | OtherCreates(key: BrokerKey, aborted: bool)
    | Stops

  /** Request ids and public ids are fresh. */
  predicate Enabled(s: Wires, step: Step) {
    match step
    case Arrives(r) => r.id !in s.seen
    case PumpLooks(waiter, _, _, _, _, pid, _) => waiter in s.offered && pid !in s.minted
    case OtherCreates(key, _) => key.publicId.Some? ==> key.publicId.value !in s.minted
    case Fails(_, how) => how != Resolved
    case _ => true
  }

  function After(s: Wires, step: Step): Wires
    requires MapsValid(s.broker) && Enabled(s, step)
  {
    match step
    case Arrives(r) => Receive(s, r)
    case ArmWaiter(scope) => s.(waiters := s.waiters + [ToolWaiter(s.nextWaiter, scope)],
        nextWaiter := s.nextWaiter + 1)
    case DropWaiters(keep) => s.(waiters := CodexClient.Keep(s.waiters, (w: ToolWaiter) => w.id !in keep))
    case PumpLooks(waiter, threadId, turnId, declared, profile, pid, aborted) =>
      Handle(s, waiter, threadId, turnId, declared, profile, pid, aborted)
    case PumpGone(waiter) => s.(offered := s.offered - {waiter})
    case Claimed(pid, profile, text) => ClaimStep(s, pid, profile, text)
    case Fails(id, how) => s.(broker := Fail(s.broker, id, how))
    case Cancels(filter) => s.(broker := CancelScope(s.broker, filter))
    case OtherClaims(pid, profile) => s.(broker := ClaimByPublicId(s.broker, pid, Some(profile)).0)
    case OtherCreates(key, aborted) =>
      s.(broker := Create(s.broker, key, Some(ForeignCall), aborted).0,
         minted := if key.publicId.Some? then s.minted + {key.publicId.value} else s.minted)
    case Stops => s.(stopped := true)
  }

  // ---- what every state keeps ----

  /** A waiter is resolved at most once, and a request is offered to at most one. */
  ghost predicate OffersOk(s: Wires) {
    && (forall w :: w in s.offered ==> w < s.nextWaiter && s.offered[w].id in s.seen && s.offered[w].id !in s.parkedAs)
    && (forall v, w | v in s.offered && w in s.offered && s.offered[v].id == s.offered[w].id :: v == w)
    && (forall i :: 0 <= i < |s.waiters| ==> s.waiters[i].id < s.nextWaiter && s.waiters[i].id !in s.offered)
    && (forall i, j :: 0 <= i < j < |s.waiters| ==> s.waiters[i].id < s.waiters[j].id)
  }

  /**
   * A live entry of this adapter is indexed under the public id, and holds the profile, its request was parked under.
   */
  ghost predicate EntryOk(index: map<string, string>, parkedAs: map<WireId, (string, Profile)>, id: string,
      e: Entry<Call>) {
    e.context.Some? && e.context.value.Wire? ==>
      && e.context.value.id in parkedAs
      && parkedAs[e.context.value.id].0 in index && index[parkedAs[e.context.value.id].0] == id
      && parkedAs[e.context.value.id].1 == e.profile
  }

  ghost predicate EntriesOk(b: State<Call>, parkedAs: map<WireId, (string, Profile)>) {
    forall id :: id in b.entries.items ==> EntryOk(b.publicIndex.items, parkedAs, id, b.entries.items[id])
  }

  /** Where an answered request came from. */
  ghost predicate ReplyOk(s: Wires, r: Reply) {
    && r.id in s.seen
    && (forall w :: w in s.offered ==> s.offered[w].id != r.id)
    && (if r.answer.Success? then
          && r.id in s.parkedAs && s.parkedAs[r.id].0 in s.claims
          && s.claims[s.parkedAs[r.id].0] == (s.parkedAs[r.id].1, r.answer.text)
        else r.id !in s.parkedAs)
  }

  ghost predicate RepliesOk(s: Wires) {
    && (forall i :: 0 <= i < |s.replies| ==> ReplyOk(s, s.replies[i]))
    && (forall i, j :: 0 <= i < j < |s.replies| ==> s.replies[i].id != s.replies[j].id)
  }

  ghost predicate TapesOk(s: Wires) {
    && s.parkedAs.Keys <= s.seen && s.claims.Keys <= s.minted
    && (forall w :: w in s.parkedAs ==> s.parkedAs[w].0 in s.minted)
    && (forall v, w | v in s.parkedAs && w in s.parkedAs && s.parkedAs[v].0 == s.parkedAs[w].0 :: v == w)
    && (forall p :: p in s.broker.publicIndex.items ==> p in s.minted && p !in s.claims)
  }

  ghost predicate Ok(s: Wires) {
    && Valid(s.broker) && OffersOk(s) && EntriesOk(s.broker, s.parkedAs) && RepliesOk(s) && TapesOk(s)
  }

  // ---- the broker loses entries, or gains another adapter's ----

  lemma ShrunkKeeps(s: Wires, b: State<Call>)
    requires Ok(s) && Shrunk(s.broker, b)
    ensures Ok(s.(broker := b))
  {
    hide Valid, OffersOk;
    ShrunkIsValid(s.broker, b);
    var t := s.(broker := b);
    assert forall i :: 0 <= i < |s.replies| ==> (ReplyOk(s, s.replies[i]) ==> ReplyOk(t, t.replies[i]));
    assert OffersOk(t) by { SameOffers(s, t); }
    hide ReplyOk;
    forall id | id in b.entries.items ensures EntryOk(b.publicIndex.items, s.parkedAs, id, b.entries.items[id]) {
      assert EntryOk(s.broker.publicIndex.items, s.parkedAs, id, s.broker.entries.items[id]);
    }
  }

  lemma SameOffers(s: Wires, t: Wires)
    requires OffersOk(s) && t.offered == s.offered && t.waiters == s.waiters && t.nextWaiter == s.nextWaiter
    requires s.seen <= t.seen && t.parkedAs == s.parkedAs
    ensures OffersOk(t)
  {
  }

  lemma AnsweredKeeps(s: Wires, id: WireId, answer: Answer)
    requires Ok(s) && id in s.seen && (forall w :: w in s.offered ==> s.offered[w].id != id)
    requires forall i :: 0 <= i < |s.replies| ==> s.replies[i].id != id
    requires ReplyOk(s, Reply(id, answer))
    ensures Ok(Answered(s, id, answer))
  {
    hide Valid, OffersOk, EntriesOk, TapesOk;
    var t := Answered(s, id, answer);
    assert OffersOk(t) by { SameOffers(s, t); }
    SameEntries(s, t);
    assert forall r :: ReplyOk(s, r) ==> ReplyOk(t, r);
    hide ReplyOk;
  }

  lemma SameEntries(s: Wires, t: Wires)
    requires t.broker == s.broker && t.parkedAs == s.parkedAs && t.seen == s.seen && t.minted == s.minted
        && t.claims == s.claims
    ensures EntriesOk(s.broker, s.parkedAs) ==> EntriesOk(t.broker, t.parkedAs)
    ensures TapesOk(s) ==> TapesOk(t)
  {
  }

  /** A request that has just been seen, before anything was done with it. */
  lemma SeenKeeps(s: Wires, id: WireId)
    requires Ok(s) && id !in s.seen
    ensures var t := s.(seen := s.seen + {id});
            && Ok(t) && id !in t.parkedAs && (forall w :: w in t.offered ==> t.offered[w].id != id)
            && (forall i :: 0 <= i < |t.replies| ==> t.replies[i].id != id)
  {
    hide Valid, EntriesOk;
    var t := s.(seen := s.seen + {id});
    assert forall i :: 0 <= i < |s.replies| ==> (ReplyOk(s, s.replies[i]) ==> ReplyOk(t, t.replies[i]));
    assert forall i :: 0 <= i < |s.replies| ==> s.replies[i].id in s.seen;
    assert OffersOk(t) by { SameOffers(s, t); }
    hide ReplyOk, OffersOk;
  }

  lemma OfferKeeps(s: Wires, i: nat, r: Request)
    requires Ok(s) && i < |s.waiters| && r.id in s.seen && r.id !in s.parkedAs
    requires (forall w :: w in s.offered ==> s.offered[w].id != r.id)
        && (forall k :: 0 <= k < |s.replies| ==> s.replies[k].id != r.id)
    ensures Ok(s.(waiters := s.waiters[..i] + s.waiters[i + 1..], offered := s.offered[s.waiters[i].id := r]))
  {
    hide Valid, EntriesOk, TapesOk;
    var t := s.(waiters := s.waiters[..i] + s.waiters[i + 1..], offered := s.offered[s.waiters[i].id := r]);
    SameEntries(s, t);
    OfferApart(s, i, r);
    hide OffersOk;
    assert forall k :: 0 <= k < |s.replies| ==> (ReplyOk(s, s.replies[k]) ==> ReplyOk(t, t.replies[k]));
    hide ReplyOk;
  }

  lemma OfferApart(s: Wires, i: nat, r: Request)
    requires OffersOk(s) && i < |s.waiters| && r.id in s.seen && r.id !in s.parkedAs
    requires forall w :: w in s.offered ==> s.offered[w].id != r.id
    ensures OffersOk(s.(waiters := s.waiters[..i] + s.waiters[i + 1..], offered := s.offered[s.waiters[i].id := r]))
  {
    var rest := s.waiters[..i] + s.waiters[i + 1..];
    assert forall k :: 0 <= k < |rest| ==> rest[k] == s.waiters[if k < i then k else k + 1];
  }

  lemma ReceiveKeeps(s: Wires, r: Request)
    requires Ok(s) && r.id !in s.seen
    ensures Ok(Receive(s, r))
  {
    hide Ok, FirstAwaiting, Answered;
    SeenKeeps(s, r.id);
    var s1 := s.(seen := s.seen + {r.id});
    var i := FirstAwaiting(s.waiters, r);
    if r.kind != ToolCall {
      AnsweredKeeps(s1, r.id, Decline);
    } else if i == |s.waiters| {
      AnsweredKeeps(s1, r.id, Failure);
    } else {
      OfferKeeps(s1, i, r);
    }
  }

  lemma WithdrawnKeeps(s: Wires, waiter: nat)
    requires Ok(s)
    ensures Ok(s.(offered := s.offered - {waiter}))
    ensures var t := s.(offered := s.offered - {waiter});
            waiter in s.offered ==>
              var id := s.offered[waiter].id;
              && id in s.seen && id !in s.parkedAs && (forall w :: w in t.offered ==> t.offered[w].id != id)
              && forall i :: 0 <= i < |t.replies| ==> t.replies[i].id != id
  {
    hide Valid, EntriesOk, TapesOk;
    var t := s.(offered := s.offered - {waiter});
    SameEntries(s, t);
    assert forall i :: 0 <= i < |s.replies| ==> (ReplyOk(s, s.replies[i]) ==> ReplyOk(t, t.replies[i]));
    if waiter in s.offered {
      var id := s.offered[waiter].id;
      forall i | 0 <= i < |t.replies| ensures t.replies[i].id != id {
        assert ReplyOk(s, s.replies[i]);
      }
    }
    hide ReplyOk;
  }

  // ---- a call is parked, or another adapter's entry is added ----

  /** `b` is the broker with one more entry, indexed under `pid`. */
  ghost predicate Grown(a: State<Call>, b: State<Call>, id: string, pid: Option<string>, e: Entry<Call>) {
    && Valid(b) && id !in a.entries.items && b.entries.items == a.entries.items[id := e]
    && (pid == None ==> b.publicIndex == a.publicIndex)
    && (pid.Some? ==> pid.value !in a.publicIndex.items && b.publicIndex.items == a.publicIndex.items[pid.value := id])
  }

  lemma CreateGrows(st: State<Call>, key: BrokerKey, call: Call)
    requires Valid(st) && MapsValid(st) && Create(st, key, Some(call), false).1 == None
    ensures key.profile.Some? && KeyOf(key).Ok?
    ensures Grown(st, Create(st, key, Some(call), false).0, KeyOf(key).value, key.publicId,
                  Entry(key.profile.value, key.provider, key.sessionId, Some(call), []))
  {
    hide Valid, MapsValid, Create, KeyOf;
    CreateKeeps(st, key, Some(call), false);
    CreateEffect(st, key, Some(call));
  }

  /** The state with a freshly minted id spent. */
  function Minting(s: Wires, pid: string): Wires {
    s.(minted := s.minted + {pid})
  }

  lemma MintKeeps(s: Wires, pid: string)
    requires Ok(s)
    ensures Ok(Minting(s, pid)) && (pid !in s.minted ==> pid !in s.claims && forall w :: w in s.parkedAs ==>
        s.parkedAs[w].0 != pid)
  {
    hide Valid, EntriesOk;
    var t := Minting(s, pid);
    assert OffersOk(t) by { SameOffers(s, t); }
    assert forall i :: 0 <= i < |s.replies| ==> (ReplyOk(s, s.replies[i]) ==> ReplyOk(t, t.replies[i]));
    hide ReplyOk, OffersOk;
  }

  lemma GrownEntriesOk(a: State<Call>, b: State<Call>, id: string, pid: Option<string>, e: Entry<Call>,
                       parkedAs: map<WireId, (string, Profile)>, parkedAs': map<WireId, (string, Profile)>)
    requires EntriesOk(a, parkedAs) && Grown(a, b, id, pid, e) && EntryOk(b.publicIndex.items, parkedAs', id, e)
    requires forall w :: w in parkedAs ==> w in parkedAs' && parkedAs'[w] == parkedAs[w]
    ensures EntriesOk(b, parkedAs')
  {
    hide Valid;
    forall x | x in b.entries.items ensures EntryOk(b.publicIndex.items, parkedAs', x, b.entries.items[x]) {
      if x != id {
        assert EntryOk(a.publicIndex.items, parkedAs, x, a.entries.items[x]);
      }
    }
  }

  lemma ForeignGrowsKeeps(s: Wires, b: State<Call>, id: string, pid: Option<string>, e: Entry<Call>)
    requires Ok(s) && Grown(s.broker, b, id, pid, e) && e.context == Some(ForeignCall)
    requires pid.Some? ==> pid.value in s.minted && pid.value !in s.claims
    ensures Ok(s.(broker := b))
  {
    hide Valid;
    var t := s.(broker := b);
    GrownEntriesOk(s.broker, b, id, pid, e, s.parkedAs, s.parkedAs);
    assert OffersOk(t) by { SameOffers(s, t); }
    assert forall i :: 0 <= i < |s.replies| ==> (ReplyOk(s, s.replies[i]) ==> ReplyOk(t, t.replies[i]));
    hide ReplyOk, OffersOk, EntriesOk;
  }

  lemma ParkedOffers(s: Wires, t: Wires, wire: WireId)
    requires OffersOk(s) && (forall w :: w in s.offered ==> s.offered[w].id != wire)
    requires t.offered == s.offered && t.waiters == s.waiters && t.nextWaiter == s.nextWaiter && t.seen == s.seen
    requires t.parkedAs.Keys == s.parkedAs.Keys + {wire}
    ensures OffersOk(t)
  {
  }

  lemma ParkedReplies(s: Wires, t: Wires, wire: WireId)
    requires RepliesOk(s) && (forall i :: 0 <= i < |s.replies| ==> s.replies[i].id != wire)
    requires t.offered == s.offered && t.replies == s.replies && t.seen == s.seen && t.claims == s.claims
    requires wire !in s.parkedAs && wire in t.parkedAs && t.parkedAs == s.parkedAs[wire := t.parkedAs[wire]]
    ensures RepliesOk(t)
  {
    assert forall i :: 0 <= i < |s.replies| ==> (ReplyOk(s, s.replies[i]) ==> ReplyOk(t, t.replies[i]));
    hide ReplyOk;
  }

  lemma ParkGrowsKeeps(s: Wires, b: State<Call>, id: string, pid: string, e: Entry<Call>, wire: WireId)
    requires Ok(s) && Grown(s.broker, b, id, Some(pid), e) && e.context == Some(Wire(wire))
    requires pid in s.minted && pid !in s.claims && (forall w :: w in s.parkedAs ==> s.parkedAs[w].0 != pid)
    requires wire in s.seen && wire !in s.parkedAs && (forall w :: w in s.offered ==> s.offered[w].id != wire)
    requires forall i :: 0 <= i < |s.replies| ==> s.replies[i].id != wire
    ensures Ok(s.(broker := b, parkedAs := s.parkedAs[wire := (pid, e.profile)]))
  {
    hide Valid, OffersOk, RepliesOk, EntriesOk;
    var t := s.(broker := b, parkedAs := s.parkedAs[wire := (pid, e.profile)]);
    GrownEntriesOk(s.broker, b, id, Some(pid), e, s.parkedAs, t.parkedAs);
    ParkedOffers(s, t, wire);
    ParkedReplies(s, t, wire);
  }

  lemma SameEntriesKeeps(s: Wires, b: State<Call>)
    requires Ok(s) && Valid(b) && b.entries == s.broker.entries && b.publicIndex == s.broker.publicIndex
    ensures Ok(s.(broker := b))
  {
    assert Shrunk(s.broker, b) by {
      hide OffersOk, EntriesOk, RepliesOk, TapesOk;
      SameEntriesShrunk(s.broker, b);
    }
    hide Ok, Valid, Shrunk;
    ShrunkKeeps(s, b);
  }

  /** An aborted creation is a creation whose entry ends at once. */
  lemma AbortedToo(s: Wires, b: State<Call>, key: BrokerKey, call: Call, t: Wires)
    requires Valid(s.broker) && MapsValid(s.broker) && b == Create(s.broker, key, Some(call), false).0
    requires Ok(t) && t.broker == b
    ensures Ok(t.(broker := Create(s.broker, key, Some(call), true).0))
    ensures Create(s.broker, key, Some(call), true).1 == Create(s.broker, key, Some(call), false).1
  {
    hide Valid, MapsValid, Create, Ok, Shrunk, KeyOf, Fail;
    CreateKeeps(s.broker, key, Some(call), false);
    ValidMaps(b);
    AbortedShrinks(s.broker, key, Some(call));
    AbortedCreation(s.broker, key, Some(call));
    ShrunkKeeps(t, Create(s.broker, key, Some(call), true).0);
  }

  // ---- each step ----

  lemma HandleKeeps(s: Wires, waiter: nat, threadId: string, turnId: string, declared: set<string>,
      caller: Option<Profile>,
                    pid: string, aborted: bool)
    requires Ok(s) && MapsValid(s.broker) && waiter in s.offered && pid !in s.minted
    ensures Ok(Handle(s, waiter, threadId, turnId, declared, caller, pid, aborted))
  {
    hide Ok, Valid, MapsValid, Create, KeyOf, Answered, Shrunk, Grown;
    var r := s.offered[waiter];
    WithdrawnKeeps(s, waiter);
    var s1 := s.(offered := s.offered - {waiter});
    if !Acceptable(r, declared, caller) {
      AnsweredKeeps(s1, r.id, Failure);
    } else {
      var key := BrokerKey(caller, Chatgpt, threadId, Some(turnId), pid, Some(pid));
      var s2 := Minting(s1, pid);
      MintKeeps(s1, pid);
      BrokerOf(s);
      var (b, refusal) := Create(s.broker, key, Some(Wire(r.id)), false);
      var t := if refusal.Some? then s2.(broker := b)
          else s2.(broker := b, parkedAs := s.parkedAs[r.id := (pid, caller.value)]);
      if refusal.Some? {
        CreateKeeps(s.broker, key, Some(Wire(r.id)), false);
        CreateEffect(s.broker, key, Some(Wire(r.id)));
        RefusedKeeps(s2, key, Some(Wire(r.id)));
      } else {
        CreateGrows(s.broker, key, Wire(r.id));
        ParkGrowsKeeps(s2, b, KeyOf(key).value, pid,
            Entry(caller.value, Chatgpt, threadId, Some(Wire(r.id)), []), r.id);
      }
      AbortedToo(s, b, key, Wire(r.id), t);
      FollowsAborted(s, key, Wire(r.id), aborted);
    }
  }

  lemma BrokerOf(s: Wires)
    requires Ok(s)
    ensures Valid(s.broker)
  {
    hide Valid;
  }

  lemma RefusedKeeps(s: Wires, key: BrokerKey, context: Option<Call>)
    requires Ok(s) && MapsValid(s.broker) && Create(s.broker, key, context, false).1.Some?
    ensures Ok(s.(broker := Create(s.broker, key, context, false).0))
  {
    BrokerOf(s);
    hide Ok, Valid, MapsValid, KeyOf;
    CreateKeeps(s.broker, key, context, false);
    SameEntriesKeeps(s, Create(s.broker, key, context, false).0);
  }

  /** Aborted or not, a creation is refused alike. */
  lemma FollowsAborted(s: Wires, key: BrokerKey, call: Call, aborted: bool)
    requires Valid(s.broker) && MapsValid(s.broker)
    ensures Create(s.broker, key, Some(call), aborted).1 == Create(s.broker, key, Some(call), false).1
  {
    hide Valid, MapsValid, Create, KeyOf;
    CreateKeeps(s.broker, key, Some(call), false);
    ValidMaps(Create(s.broker, key, Some(call), false).0);
    AbortedCreation(s.broker, key, Some(call));
  }

  lemma OtherCreatesKeeps(s: Wires, key: BrokerKey, aborted: bool)
    requires Ok(s) && MapsValid(s.broker) && Enabled(s, OtherCreates(key, aborted))
    ensures Ok(After(s, OtherCreates(key, aborted)))
  {
    hide Ok, Valid, MapsValid, Create, KeyOf, Shrunk, Grown;
    BrokerOf(s);
    var s1 := if key.publicId.Some? then Minting(s, key.publicId.value) else s;
    if key.publicId.Some? {
      MintKeeps(s, key.publicId.value);
    }
    var (b, refusal) := Create(s.broker, key, Some(ForeignCall), false);
    if refusal.Some? {
      RefusedKeeps(s1, key, Some(ForeignCall));
    } else {
      CreateGrows(s.broker, key, ForeignCall);
      ForeignGrowsKeeps(s1, b, KeyOf(key).value, key.publicId,
                        Entry(key.profile.value, key.provider, key.sessionId, Some(ForeignCall), []));
    }
    AbortedToo(s, b, key, ForeignCall, s1.(broker := b));
  }

  lemma ClaimedKeeps(s: Wires, pid: string, c: (Profile, string))
    requires Ok(s) && pid in s.minted && pid !in s.claims && pid !in s.broker.publicIndex.items
    ensures Ok(s.(claims := s.claims[pid := c]))
  {
    hide Valid, EntriesOk;
    var t := s.(claims := s.claims[pid := c]);
    assert OffersOk(t) by { SameOffers(s, t); }
    assert forall i :: 0 <= i < |s.replies| ==> (ReplyOk(s, s.replies[i]) ==> ReplyOk(t, t.replies[i]));
    hide ReplyOk, OffersOk;
  }

  /** A live id leads back to the request it was minted for, which nobody has answered yet. */
  lemma LiveIsUnanswered(s: Wires, pid: string)
    requires Ok(s) && pid in s.broker.publicIndex.items && s.broker.publicIndex.items[pid] in s.broker.entries.items
    requires var e := s.broker.entries.items[s.broker.publicIndex.items[pid]]; e.context.Some? && e.context.value.Wire?
    ensures var e := s.broker.entries.items[s.broker.publicIndex.items[pid]];
            var wire := e.context.value.id;
            && wire in s.parkedAs && s.parkedAs[wire] == (pid, e.profile) && wire in s.seen
            && (forall w :: w in s.offered ==> s.offered[w].id != wire)
            && (forall i :: 0 <= i < |s.replies| ==> s.replies[i].id != wire)
            && pid in s.minted && pid !in s.claims
  {
    ValidIndex(s.broker);
    hide Valid;
    var id := s.broker.publicIndex.items[pid];
    assert EntryOk(s.broker.publicIndex.items, s.parkedAs, id, s.broker.entries.items[id]);
    var wire := s.broker.entries.items[id].context.value.id;
    forall i | 0 <= i < |s.replies| ensures s.replies[i].id != wire {
      assert ReplyOk(s, s.replies[i]);
    }
  }

  lemma SuccessOk(s: Wires, wire: WireId, pid: string, profile: Profile, text: string)
    requires wire in s.seen && wire in s.parkedAs && s.parkedAs[wire] == (pid, profile) && pid in s.claims
        && s.claims[pid] == (profile, text)
    requires forall w :: w in s.offered ==> s.offered[w].id != wire
    ensures ReplyOk(s, Reply(wire, Success(text)))
  {
  }

  lemma ClaimStepKeeps(s: Wires, pid: string, profile: Profile, text: string)
    requires Ok(s) && MapsValid(s.broker)
    ensures Ok(ClaimStep(s, pid, profile, text))
  {
    BrokerOf(s);
    hide Ok, Valid, MapsValid, ClaimByPublicId, Answered, Shrunk;
    ValidIndex(s.broker);
    ClaimIsExact(s.broker, pid, Some(profile));
    ClaimShrinks(s.broker, pid, Some(profile));
    var (b, claim) := ClaimByPublicId(s.broker, pid, Some(profile));
    ShrunkKeeps(s, b);
    var s1 := s.(broker := b);
    if claim.outcome == OutResolved && claim.context.Some? && claim.context.value.Wire? {
      var wire := claim.context.value.id;
      LiveIsUnanswered(s, pid);
      ClaimedKeeps(s1, pid, (profile, text));
      var s2 := s1.(claims := s1.claims[pid := (profile, text)]);
      SuccessOk(s2, wire, pid, profile, text);
      AnsweredKeeps(s2, wire, Success(text));
      AnsweredThenClaimed(s1, wire, Success(text), pid, (profile, text));
    }
  }

  lemma AnsweredThenClaimed(s: Wires, id: WireId, answer: Answer, pid: string, c: (Profile, string))
    ensures Answered(s, id, answer).(claims := s.claims[pid := c])
        == Answered(s.(claims := s.claims[pid := c]), id, answer)
  {
  }

  /** Only the waiters and the stop flag change. */
  lemma WaitersChange(s: Wires, t: Wires)
    requires Ok(s) && OffersOk(t) && t == s.(waiters := t.waiters, nextWaiter := t.nextWaiter, stopped := t.stopped)
    ensures Ok(t)
  {
    hide Valid, EntriesOk, TapesOk, OffersOk;
    SameEntries(s, t);
    assert forall i :: 0 <= i < |s.replies| ==> (ReplyOk(s, s.replies[i]) ==> ReplyOk(t, t.replies[i]));
    hide ReplyOk;
  }

  lemma OffersStay(s: Wires, t: Wires)
    requires OffersOk(s)
    requires t == s.(stopped := t.stopped)
        || exists scope :: t == s.(waiters := s.waiters + [ToolWaiter(s.nextWaiter, scope)],
        nextWaiter := s.nextWaiter + 1)
    ensures OffersOk(t)
  {
  }

  lemma WaiterStepsKeep(s: Wires, step: Step)
    requires Ok(s) && MapsValid(s.broker) && (step.ArmWaiter? || step.DropWaiters? || step.Stops?)
    ensures Ok(After(s, step))
  {
    assert OffersOk(s);
    hide Ok, OffersOk, MapsValid, CodexClient.Keep;
    var t := After(s, step);
    if step.DropWaiters? {
      FewerWaitersOk(s, step.keep);
    } else {
      OffersStay(s, t);
    }
    WaitersChange(s, t);
  }

  lemma FewerWaitersOk(s: Wires, keep: set<nat>)
    requires OffersOk(s)
    ensures OffersOk(s.(waiters := CodexClient.Keep(s.waiters, (w: ToolWaiter) => w.id !in keep)))
  {
    var kept := CodexClient.Keep(s.waiters, (w: ToolWaiter) => w.id !in keep);
    KeptInOrder(s.waiters, (w: ToolWaiter) => w.id !in keep);
    forall i | 0 <= i < |kept| ensures kept[i].id < s.nextWaiter && kept[i].id !in s.offered {
      assert kept[i] in kept;
      var k :| 0 <= k < |s.waiters| && s.waiters[k] == kept[i];
    }
  }

  lemma {:induction false} KeptInOrder(waiters: seq<ToolWaiter>, p: ToolWaiter -> bool)
    requires forall i, j :: 0 <= i < j < |waiters| ==> waiters[i].id < waiters[j].id
    ensures forall i, j :: 0 <= i < j < |CodexClient.Keep(waiters, p)| ==>
        CodexClient.Keep(waiters, p)[i].id < CodexClient.Keep(waiters, p)[j].id
  {
    if waiters != [] {
      KeptInOrder(waiters[1..], p);
      var kept := CodexClient.Keep(waiters[1..], p);
      forall w | w in kept ensures waiters[0].id < w.id {
        var k :| 0 <= k < |waiters[1..]| && waiters[1..][k] == w;
        assert waiters[k + 1] == w;
      }
    }
  }

  lemma StepKeeps(s: Wires, step: Step)
    requires Ok(s) && MapsValid(s.broker) && Enabled(s, step)
    ensures Ok(After(s, step))
  {
    BrokerOf(s);
    hide Ok, Valid, MapsValid, Receive, Handle, ClaimStep, Create, Fail, CancelScope, ClaimByPublicId, Shrunk;
    match step
    case Arrives(r) => ReceiveKeeps(s, r);
    case PumpLooks(waiter, threadId, turnId, declared, caller, pid, aborted) =>
      HandleKeeps(s, waiter, threadId, turnId, declared, caller, pid, aborted);
    case PumpGone(waiter) => WithdrawnKeeps(s, waiter);
    case Claimed(pid, profile, text) => ClaimStepKeeps(s, pid, profile, text);
    case Fails(id, how) => FailShrinks(s.broker, id, how); ShrunkKeeps(s, Fail(s.broker, id, how));
    case Cancels(filter) => CancelShrinks(s.broker, filter); ShrunkKeeps(s, CancelScope(s.broker, filter));
    case OtherClaims(pid, profile) =>
      ClaimShrinks(s.broker, pid, Some(profile));
      ShrunkKeeps(s, ClaimByPublicId(s.broker, pid, Some(profile)).0);
    case OtherCreates(key, aborted) => OtherCreatesKeeps(s, key, aborted);
    case ArmWaiter(_) => WaiterStepsKeep(s, step);
    case DropWaiters(_) => WaiterStepsKeep(s, step);
    case Stops => WaiterStepsKeep(s, step);
  }

  // ---- runs ----

  function Start(maxPending: nat): Wires {
    Wires(Initial(maxPending), [], 0, map[], false, [], {}, {}, map[], map[])
  }

  lemma StartIsOk(maxPending: nat)
    ensures Ok(Start(maxPending))
  {
    InitialIsValid<Call>(maxPending);
    hide Valid;
  }

  lemma BrokerMaps(s: Wires)
    requires Ok(s)
    ensures MapsValid(s.broker)
  {
    BrokerOf(s);
    hide Ok, Valid, MapsValid;
    ValidMaps(s.broker);
  }

  ghost function Follow(s: Wires, step: Step): (t: Wires)
    requires Ok(s)
    ensures Ok(t)
  {
    hide Ok, MapsValid, After, Enabled;
    BrokerMaps(s);
    if Enabled(s, step) then StepKeeps(s, step); After(s, step) else s
  }

  /** The state after a run; steps that are not enabled change nothing. */
  ghost function Run(maxPending: nat, steps: seq<Step>): (s: Wires)
    ensures Ok(s)
  {
    hide Ok, Follow;
    if steps == [] then StartIsOk(maxPending); Start(maxPending)
    else Follow(Run(maxPending, steps[..|steps| - 1]), steps[|steps| - 1])
  }

  /** In every run, each request of the app-server is answered at most once. */
  lemma AnsweredAtMostOnce(maxPending: nat, steps: seq<Step>, i: nat, j: nat)
    requires i < j < |Run(maxPending, steps).replies|
    ensures Run(maxPending, steps).replies[i].id != Run(maxPending, steps).replies[j].id
  {
    hide Valid, OffersOk, EntriesOk, TapesOk, ReplyOk;
  }

  /**
   * In every run, a request answered with a result was parked, and the text is that of the claim of
   * its public id, under the profile it was parked for; no other request was parked under that id.
   * A request answered otherwise was never parked.
   */
  lemma SuccessIsTheClaimedResult(maxPending: nat, steps: seq<Step>, i: nat)
    requires i < |Run(maxPending, steps).replies|
    ensures var s := Run(maxPending, steps);
            var r := s.replies[i];
            && (r.answer.Success? <==> r.id in s.parkedAs)
            && (r.answer.Success? ==>
                  && s.parkedAs[r.id].0 in s.claims
                  && s.claims[s.parkedAs[r.id].0] == (s.parkedAs[r.id].1, r.answer.text)
                  && forall w :: w in s.parkedAs && s.parkedAs[w].0 == s.parkedAs[r.id].0 ==> w == r.id)
  {
    hide Valid, OffersOk, EntriesOk;
    var s := Run(maxPending, steps);
    assert ReplyOk(s, s.replies[i]);
  }

  /** An unclaimed parked request stays unanswered, so its claim is still the only answer it can get. */
  lemma ParkedIsUnanswered(maxPending: nat, steps: seq<Step>, w: WireId)
    requires w in Run(maxPending, steps).parkedAs
        && Run(maxPending, steps).parkedAs[w].0 !in Run(maxPending, steps).claims
    ensures forall i :: 0 <= i < |Run(maxPending, steps).replies| ==> Run(maxPending, steps).replies[i].id != w
  {
    hide Valid, OffersOk, EntriesOk;
    var s := Run(maxPending, steps);
    forall i | 0 <= i < |s.replies| ensures s.replies[i].id != w {
      assert ReplyOk(s, s.replies[i]);
    }
  }

  // ---- every claim that comes in time is an answer ----

  ghost predicate IsAnswered(s: Wires, w: WireId) {
    exists i :: 0 <= i < |s.replies| && s.replies[i].id == w
  }

  /** What every step but a claim leaves: nothing claimed, no result written, nothing parked anew under another id. */
  ghost predicate NothingClaimed(s: Wires, t: Wires) {
    && t.claims == s.claims && s.replies <= t.replies
    && (forall i :: |s.replies| <= i < |t.replies| ==> !t.replies[i].answer.Success?)
    && (forall w :: w in s.parkedAs && w in t.parkedAs ==> t.parkedAs[w] == s.parkedAs[w])
    && (forall w :: w in t.parkedAs && w !in s.parkedAs ==> t.parkedAs[w].0 !in s.minted)
  }

  lemma OnlyClaimsClaim(s: Wires, step: Step)
    requires OffersOk(s) && MapsValid(s.broker) && Enabled(s, step) && !step.Claimed?
    ensures NothingClaimed(s, After(s, step)) && (s.stopped ==> After(s, step).stopped)
  {
    hide Valid, MapsValid, Create, Fail, CancelScope, ClaimByPublicId, CodexClient.Keep, Receive, Handle;
    match step
    case Arrives(r) => ReceivingClaimsNothing(s, r);
    case PumpLooks(waiter, threadId, turnId, declared, caller, pid, aborted) =>
      HandlingClaimsNothing(s, waiter, threadId, turnId, declared, caller, pid, aborted);
    case _ =>
  }

  lemma ReceivingClaimsNothing(s: Wires, r: Request)
    ensures NothingClaimed(s, Receive(s, r)) && (s.stopped ==> Receive(s, r).stopped)
  {
    hide FirstAwaiting;
  }

  lemma HandlingClaimsNothing(s: Wires, waiter: nat, threadId: string, turnId: string, declared: set<string>,
                              caller: Option<Profile>, pid: string, aborted: bool)
    requires OffersOk(s) && MapsValid(s.broker) && waiter in s.offered && pid !in s.minted
    ensures var t := Handle(s, waiter, threadId, turnId, declared, caller, pid, aborted);
            NothingClaimed(s, t) && (s.stopped ==> t.stopped)
  {
    hide MapsValid, Create, Acceptable;
    AcceptableHasCaller(s.offered[waiter], declared, caller);
  }

  /** A resolved claim of a parked request is recorded, and answers it unless the client has stopped. */
  lemma ClaimRecords(s: Wires, pid: string, profile: Profile, text: string) returns (wire: Option<WireId>)
    requires Ok(s) && MapsValid(s.broker)
    ensures var t := ClaimStep(s, pid, profile, text);
            && t.parkedAs == s.parkedAs && t.stopped == s.stopped
            && (wire == None ==> t.claims == s.claims && t.replies == s.replies)
            && (wire.Some? ==>
                  && pid !in s.claims && t.claims.Keys == s.claims.Keys + {pid}
                  && wire.value in s.parkedAs && s.parkedAs[wire.value].0 == pid
                  && t.replies == if s.stopped then s.replies else s.replies + [Reply(wire.value, Success(text))])
  {
    BrokerOf(s);
    hide Ok, Valid, MapsValid, ClaimByPublicId, ClaimStep;
    ClaimIsExact(s.broker, pid, Some(profile));
    var claim := ClaimByPublicId(s.broker, pid, Some(profile)).1;
    if claim.outcome == OutResolved && claim.context.Some? && claim.context.value.Wire? {
      IndexIsLive(s.broker, pid);
      LiveIsUnanswered(s, pid);
      wire := Some(claim.context.value.id);
      ResolvedShape(s, pid, profile, text, wire.value);
    } else {
      wire := None;
      UnresolvedShape(s, pid, profile, text);
    }
  }

  lemma IndexIsLive(b: State<Call>, pid: string)
    requires Valid(b) && pid in b.publicIndex.items
    ensures b.publicIndex.items[pid] in b.entries.items
  {
    ValidIndex(b);
    hide Valid;
  }

  lemma ResolvedShape(s: Wires, pid: string, profile: Profile, text: string, wire: WireId)
    requires MapsValid(s.broker)
    requires ClaimByPublicId(s.broker, pid, Some(profile)).1 == Claim(OutResolved, Some(Wire(wire)))
    ensures var t := ClaimStep(s, pid, profile, text);
            && t.parkedAs == s.parkedAs && t.stopped == s.stopped && t.claims.Keys == s.claims.Keys + {pid}
            && t.replies == if s.stopped then s.replies else s.replies + [Reply(wire, Success(text))]
  {
    hide MapsValid, ClaimByPublicId;
  }

  lemma UnresolvedShape(s: Wires, pid: string, profile: Profile, text: string)
    requires MapsValid(s.broker)
    requires var claim := ClaimByPublicId(s.broker, pid, Some(profile)).1;
             !(claim.outcome == OutResolved && claim.context.Some? && claim.context.value.Wire?)
    ensures var t := ClaimStep(s, pid, profile, text);
            t.parkedAs == s.parkedAs && t.stopped == s.stopped && t.claims == s.claims && t.replies == s.replies
  {
    hide MapsValid, ClaimByPublicId;
  }

  lemma AnsweredMore(a: Wires, b: Wires, w: WireId)
    requires a.replies <= b.replies && forall i :: |a.replies| <= i < |b.replies| ==> b.replies[i].id != w
    ensures IsAnswered(a, w) <==> IsAnswered(b, w)
  {
    if IsAnswered(a, w) {
      var i :| 0 <= i < |a.replies| && a.replies[i].id == w;
      assert b.replies[i].id == w;
    }
  }

  /** A parked request that is answered was answered with the result of a claim. */
  lemma ParkedAnswersAreResults(s: Wires, w: WireId, i: nat)
    requires Ok(s) && w in s.parkedAs && i < |s.replies| && s.replies[i].id == w
    ensures s.replies[i].answer.Success? && s.parkedAs[w].0 in s.claims
  {
    hide Valid, OffersOk, EntriesOk, TapesOk;
    assert ReplyOk(s, s.replies[i]);
  }

  lemma ParkedApart(s: Wires, v: WireId, w: WireId)
    requires Ok(s) && v in s.parkedAs && w in s.parkedAs && s.parkedAs[v].0 == s.parkedAs[w].0
    ensures v == w
  {
    hide Valid, OffersOk, EntriesOk, RepliesOk;
  }

  lemma ClaimsAreMinted(s: Wires)
    requires Ok(s)
    ensures s.claims.Keys <= s.minted && OffersOk(s)
  {
    hide Valid, OffersOk, EntriesOk, RepliesOk;
  }

  /** What one step does about the answer of a request that is parked after it. */
  ghost predicate Answers(s: Wires, t: Wires, w: WireId)
    requires w in t.parkedAs
  {
    var pid := t.parkedAs[w].0;
    && s.claims.Keys <= t.claims.Keys && (s.stopped ==> t.stopped)
    && (IsAnswered(t, w) <==> IsAnswered(s, w) || (pid !in s.claims && pid in t.claims && !s.stopped))
    && (w in s.parkedAs ==> s.parkedAs[w] == t.parkedAs[w])
    && (w !in s.parkedAs ==> pid !in t.claims && !IsAnswered(t, w))
  }

  lemma PlainStepAnswers(s: Wires, t: Wires, w: WireId)
    requires Ok(s) && Ok(t) && NothingClaimed(s, t) && w in t.parkedAs && (s.stopped ==> t.stopped)
    ensures Answers(s, t, w)
  {
    hide Ok;
    ClaimsAreMinted(s);
    forall i | 0 <= i < |t.replies| && t.replies[i].id == w
      ensures t.replies[i].answer.Success? && t.parkedAs[w].0 in t.claims
    {
      ParkedAnswersAreResults(t, w, i);
    }
    AnsweredMore(s, t, w);
  }

  lemma ClaimStepAnswers(s: Wires, pid: string, profile: Profile, text: string, w: WireId)
    requires Ok(s) && MapsValid(s.broker) && w in s.parkedAs
    ensures w in ClaimStep(s, pid, profile, text).parkedAs && Answers(s, ClaimStep(s, pid, profile, text), w)
  {
    hide Ok, MapsValid, ClaimStep;
    var wire := ClaimRecords(s, pid, profile, text);
    var t := ClaimStep(s, pid, profile, text);
    if wire.Some? {
      if s.parkedAs[w].0 == pid {
        ParkedApart(s, wire.value, w);
        assert !s.stopped ==> t.replies[|s.replies|].id == w;
      } else {
        AnsweredMore(s, t, w);
      }
    }
  }

  lemma StepAnswers(s: Wires, step: Step, w: WireId)
    requires Ok(s) && w in Follow(s, step).parkedAs
    ensures Answers(s, Follow(s, step), w)
  {
    hide Ok, MapsValid, Enabled, After, Answers, NothingClaimed;
    BrokerMaps(s);
    ClaimsAreMinted(s);
    if !Enabled(s, step) {
      NothingHappens(s);
      PlainStepAnswers(s, s, w);
    } else if step.Claimed? {
      ClaimIsAfter(s, step);
      ClaimParksNothing(s, step.pid, step.profile, step.text);
      ClaimStepAnswers(s, step.pid, step.profile, step.text, w);
    } else {
      OnlyClaimsClaim(s, step);
      PlainStepAnswers(s, After(s, step), w);
    }
  }

  lemma NothingHappens(s: Wires)
    ensures NothingClaimed(s, s)
  {
  }

  lemma ClaimIsAfter(s: Wires, step: Step)
    requires MapsValid(s.broker) && step.Claimed?
    ensures Enabled(s, step) && After(s, step) == ClaimStep(s, step.pid, step.profile, step.text)
  {
    hide MapsValid, ClaimStep;
  }

  lemma ClaimParksNothing(s: Wires, pid: string, profile: Profile, text: string)
    requires MapsValid(s.broker)
    ensures ClaimStep(s, pid, profile, text).parkedAs == s.parkedAs
  {
    hide MapsValid, ClaimByPublicId;
  }

  /** Step `j` of a run claimed `pid`, before the client stopped. */
  ghost predicate ClaimedInTime(maxPending: nat, steps: seq<Step>, j: nat, pid: string)
    requires j < |steps|
  {
    && pid !in Run(maxPending, steps[..j]).claims && pid in Run(maxPending, steps[..j + 1]).claims
    && !Run(maxPending, steps[..j]).stopped
  }

  ghost predicate WasClaimedInTime(maxPending: nat, steps: seq<Step>, pid: string) {
    exists j :: 0 <= j < |steps| && ClaimedInTime(maxPending, steps, j, pid)
  }

  lemma RunNext(maxPending: nat, steps: seq<Step>)
    requires steps != []
    ensures Run(maxPending, steps) == Follow(Run(maxPending, steps[..|steps| - 1]), steps[|steps| - 1])
  {
    hide Ok, Follow;
  }

  lemma InTimeEarlier(maxPending: nat, steps: seq<Step>, j: nat, pid: string)
    requires j < |steps| - 1
    ensures ClaimedInTime(maxPending, steps[..|steps| - 1], j, pid) <==> ClaimedInTime(maxPending, steps, j, pid)
  {
    hide Run;
    var front := steps[..|steps| - 1];
    assert front[..j] == steps[..j] && front[..j + 1] == steps[..j + 1];
  }

  lemma InTimeMore(maxPending: nat, steps: seq<Step>, pid: string)
    requires steps != []
    ensures var n := |steps| - 1;
            WasClaimedInTime(maxPending, steps, pid) <==>
              WasClaimedInTime(maxPending, steps[..n], pid) || ClaimedInTime(maxPending, steps, n, pid)
  {
    hide Run, ClaimedInTime;
    var front := steps[..|steps| - 1];
    forall j | 0 <= j < |front|
      ensures ClaimedInTime(maxPending, front, j, pid) <==> ClaimedInTime(maxPending, steps, j, pid)
    {
      InTimeEarlier(maxPending, steps, j, pid);
    }
    if WasClaimedInTime(maxPending, front, pid) {
      var j :| 0 <= j < |front| && ClaimedInTime(maxPending, front, j, pid);
      assert ClaimedInTime(maxPending, steps, j, pid);
    }
  }

  lemma FollowGrows(s: Wires, step: Step)
    requires Ok(s)
    ensures s.claims.Keys <= Follow(s, step).claims.Keys
  {
    hide Ok, MapsValid, Enabled, After;
    BrokerMaps(s);
    ClaimsAreMinted(s);
    if Enabled(s, step) {
      if step.Claimed? {
        ClaimIsAfter(s, step);
        var _ := ClaimRecords(s, step.pid, step.profile, step.text);
      } else {
        OnlyClaimsClaim(s, step);
      }
    }
  }

  /** What was claimed in time has been claimed. */
  lemma {:induction false} InTimeIsClaimed(maxPending: nat, steps: seq<Step>, pid: string)
    requires WasClaimedInTime(maxPending, steps, pid)
    ensures pid in Run(maxPending, steps).claims
    decreases |steps|
  {
    hide Ok, Run, Follow, WasClaimedInTime;
    NothingInTime(maxPending, pid);
    if steps != [] {
      var n := |steps| - 1;
      InTimeMore(maxPending, steps, pid);
      RunNext(maxPending, steps);
      FollowGrows(Run(maxPending, steps[..n]), steps[n]);
      assert steps[..n + 1] == steps;
      if WasClaimedInTime(maxPending, steps[..n], pid) {
        InTimeIsClaimed(maxPending, steps[..n], pid);
      }
    }
  }

  lemma NothingInTime(maxPending: nat, pid: string)
    ensures !WasClaimedInTime(maxPending, [], pid)
  {
  }

  /**
   * In every run a parked request has been answered if and only if its public id was claimed before the
   * client stopped; so, while it has not stopped, if and only if it was claimed.
   */
  lemma {:induction false} ClaimedInTimeIsAnswered(maxPending: nat, steps: seq<Step>, w: WireId)
    requires w in Run(maxPending, steps).parkedAs
    ensures var s := Run(maxPending, steps);
            && (IsAnswered(s, w) <==> WasClaimedInTime(maxPending, steps, s.parkedAs[w].0))
            && (!s.stopped ==> (IsAnswered(s, w) <==> s.parkedAs[w].0 in s.claims))
    decreases |steps|
  {
    hide Ok, Follow, IsAnswered, WasClaimedInTime, Run;
    NothingParked(maxPending);
    if steps != [] {
      var n := |steps| - 1;
      var s := Run(maxPending, steps[..n]);
      RunNext(maxPending, steps);
      StepAnswers(s, steps[n], w);
      var pid := Run(maxPending, steps).parkedAs[w].0;
      InTimeMore(maxPending, steps, pid);
      assert steps[..n + 1] == steps;
      if w in s.parkedAs {
        ClaimedInTimeIsAnswered(maxPending, steps[..n], w);
      } else if WasClaimedInTime(maxPending, steps, pid) {
        InTimeIsClaimed(maxPending, steps, pid);
      }
    }
  }

  lemma NothingParked(maxPending: nat)
    ensures Run(maxPending, []).parkedAs == map[]
  {
  }

  // ---- what one step does with a request ----

  /** A request is declined on the spot exactly when it is no tool call, or none of the waiters' scopes covers it. */
  lemma DeclinedWhenUnawaited(s: Wires, r: Request)
    requires !s.stopped
    ensures var declined := r.kind != ToolCall || forall w :: w in s.waiters ==> !Awaits(w, r);
            var t := Receive(s, r);
            && (declined ==> t.replies == s.replies + [Reply(r.id, if r.kind != ToolCall then Decline else Failure)]
                             && t.waiters == s.waiters && t.offered == s.offered)
            && (!declined ==> t.replies == s.replies && exists w ::
                w in s.waiters && Awaits(w, r) && t.offered == s.offered[w.id := r])
  {
    var i := FirstAwaiting(s.waiters, r);
    if i < |s.waiters| {
      assert s.waiters[i] in s.waiters;
    } else {
      forall w | w in s.waiters ensures !Awaits(w, r) {
        var k :| 0 <= k < |s.waiters| && s.waiters[k] == w;
      }
    }
  }

  /**
   * A claim under the profile a live call was parked for answers its request with the text; any other profile changes
   * nothing.
   */
  lemma ClaimAnswers(s: Wires, pid: string, profile: Profile, text: string, wire: WireId)
    requires Ok(s) && MapsValid(s.broker) && !s.stopped && pid in s.broker.publicIndex.items
    requires s.broker.publicIndex.items[pid] in s.broker.entries.items
    requires s.broker.entries.items[s.broker.publicIndex.items[pid]].context == Some(Wire(wire))
    ensures wire in s.parkedAs && s.parkedAs[wire].0 == pid
    ensures profile == s.parkedAs[wire].1 ==>
        ClaimStep(s, pid, profile, text).replies == s.replies + [Reply(wire, Success(text))]
    ensures profile != s.parkedAs[wire].1 ==> ClaimStep(s, pid, profile, text) == s
  {
    BrokerOf(s);
    LiveIsUnanswered(s, pid);
    hide Ok, Valid, MapsValid, ClaimByPublicId;
    ClaimIsExact(s.broker, pid, Some(profile));
  }

  /**
   * A pump either answers a request with a failure, and the broker never hears of it, or offers it to
   * the broker under a fresh id and its own profile; only a broker that refuses leaves it unanswered.
   */
  lemma PumpDecides(s: Wires, waiter: nat, threadId: string, turnId: string, declared: set<string>,
      caller: Option<Profile>, pid: string)
    requires Ok(s) && MapsValid(s.broker) && waiter in s.offered && !s.stopped && pid !in s.minted
    ensures var r := s.offered[waiter];
            var t := Handle(s, waiter, threadId, turnId, declared, caller, pid, false);
            && t.offered == s.offered - {waiter}
            && (!Acceptable(r, declared, caller) ==>
                t.replies == s.replies + [Reply(r.id, Failure)] && t.broker == s.broker && t.parkedAs == s.parkedAs)
            && (Acceptable(r, declared, caller) ==> t.replies == s.replies)
            && (r.id in t.parkedAs <==>
                  && Acceptable(r, declared, caller)
                  && Create(s.broker, BrokerKey(caller, Chatgpt, threadId, Some(turnId), pid, Some(pid)),
                      Some(Wire(r.id)), false).1 == None)
            && (r.id in t.parkedAs ==>
                  && t.parkedAs[r.id] == (pid, caller.value) && pid in t.broker.publicIndex.items
                  && t.broker.publicIndex.items[pid] in t.broker.entries.items
                  && t.broker.entries.items[t.broker.publicIndex.items[pid]].context == Some(Wire(r.id)))
  {
    BrokerOf(s);
    WithdrawnKeeps(s, waiter);
    hide Ok, Valid, MapsValid, Create, KeyOf, Acceptable;
    CreateEffect(s.broker, BrokerKey(caller, Chatgpt, threadId, Some(turnId), pid, Some(pid)),
        Some(Wire(s.offered[waiter].id)));
    AcceptableHasCaller(s.offered[waiter], declared, caller);
  }

  lemma AcceptableHasCaller(r: Request, declared: set<string>, caller: Option<Profile>)
    ensures Acceptable(r, declared, caller) ==> caller.Some?
  {
  }
}
