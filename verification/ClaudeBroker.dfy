/**
 * The shared broker as the sessions use it. Every step of the world makes the calls of the broker that
 * its event calls for, given here on the fields of the step and of the sessions, and changes the broker
 * in no other way. So the broker of any run of the world is that of a run of broker operations, and all
 * that holds of those holds of it, whatever the sessions and the other adapters do.
 */
module ClaudeBroker {
  import opened Options
  import opened OrderedMaps
  import opened BrokerKeys
  import opened BrokerSpec
  import BrokerRuns
  import opened BrokerCalls
  import opened BrokerShrinking
  import opened ClaudeSpec
  import opened ClaudeWorld
  import opened ClaudeResults
  import opened ClaudeProofs
  import opened ClaudeTheorems
  import ClaudeAnswers

  type Call = BrokerRuns.Op<Owner>

  /** Cancelling whatever the session has in the broker, unless it was terminated before. */
  function Cancels(w: World, key: SessionKey): seq<Call>
    requires key in w.sessions
  {
    if w.sessions[key].terminated then []
    else [BrokerRuns.DoCancelScope(Filter(Some(Claude), Some(key)))]
  }

  /** What a resumed call asks of the broker: nothing at a shut gate or a full map, else a live entry. */
  function Parking(w: World, key: SessionKey, pid: string, room: bool): seq<Call>
    requires key in w.sessions
  {
    var s := w.sessions[key];
    if s.gate || |w.sh.byPublic| >= w.sh.maxLive then Cancels(w, key)
    else [BrokerRuns.DoCreate(BrokerKey(Some(s.profile), Claude, key, None, pid, Some(pid)),
                              Some(ClaudeSession(key)), false)]
         + (if room then [] else Cancels(w, key))
  }

  /** A frame of the connection is pending. */
  predicate Owns(c: Control, socket: Socket) {
    exists f :: f in c.pending && c.pending[f] == socket
  }

  /** The claimed call is live, under this profile, and another adapter's. */
  ghost predicate ClaimsForeign(w: World, pid: string, profile: Profile) {
    && pid in w.sh.broker.publicIndex.items
    && w.sh.broker.publicIndex.items[pid] in w.sh.broker.entries.items
    && var e := w.sh.broker.entries.items[w.sh.broker.publicIndex.items[pid]];
       e.profile == profile && e.context == Some(OtherAdapter)
  }

  /** A claim, and the cancelling of all this adapter's calls when it brought another adapter's. */
  ghost function Claiming(w: World, pid: string, profile: Profile): seq<Call> {
    [BrokerRuns.DoClaimPublic(pid, Some(profile))]
    + (if ClaimsForeign(w, pid, profile) then [BrokerRuns.DoCancelScope(Filter(Some(Claude), None))] else [])
  }

  /** The calls of the broker an enabled step makes, in order. */
  ghost function CallsOf(w: World, step: Step): seq<Call>
    requires Enabled(w, step)
  {
    match step
    case ResumeCall(key, pid) => Parking(w, key, pid, ClaudeAnswers.Room(w, key, pid))
    case ClaimResult(_, pid, profile, _) => Claiming(w, pid, profile)
    case DrainEnds(key) => Cancels(w, key)
    case SessionTtl(key) => Cancels(w, key)
    case CancelRequest(rid) => Cancels(w, w.sh.byRequest[rid])
    case SocketGone(key, socket) => if Owns(w.sessions[key].control, socket) then Cancels(w, key) else []
    case BrokerTtl(id) => [BrokerRuns.DoExpire(id)]
    case OtherCreates(call, aborted) => [BrokerRuns.DoCreate(call, Some(OtherAdapter), aborted)]
    case OtherClaims(pid, profile) => [BrokerRuns.DoClaimPublic(pid, Some(profile))]
    case OtherFails(id) => [BrokerRuns.DoAbort(id)]
    case OtherCancels(provider, session) => [BrokerRuns.DoCancelScope(Filter(Some(provider), session))]
    case _ => []
  }

  /** Closing a session cancels its scope, whatever else the caller changed of the session before. */
  lemma CloseCancels(w: World, b: State<Owner>, key: SessionKey, s: Session)
    requires Valid(b) && MapsValid(b) && key in w.sessions && s.terminated == w.sessions[key].terminated
    ensures ApplyAll(b, Cancels(w, key)) == Close(w.sh.(broker := b), key, s).0.broker
  {
    hide Valid, MapsValid, CancelScope, ApplyAll;
    NoCall(b);
    OneCall(b, BrokerRuns.DoCancelScope(Filter(Some(Claude), Some(key))));
  }

  lemma CreateAndCancel(w: World, call: Call, key: SessionKey)
    requires Valid(w.sh.broker) && key in w.sessions
    ensures Valid(BrokerRuns.Apply(w.sh.broker, call))
    ensures ApplyAll(w.sh.broker, [call] + Cancels(w, key))
         == ApplyAll(BrokerRuns.Apply(w.sh.broker, call), Cancels(w, key))
  {
    hide Valid, BrokerRuns.Apply, ApplyAll;
    BrokerRuns.ApplyKeeps(w.sh.broker, call);
    OneCall(w.sh.broker, call);
    NoCall(BrokerRuns.Apply(w.sh.broker, call));
    var cancel: Call := BrokerRuns.DoCancelScope(Filter(Some(Claude), Some(key)));
    OneCall(BrokerRuns.Apply(w.sh.broker, call), cancel);
    TwoCalls(w.sh.broker, call, cancel);
    assert [call] + [] == [call];
  }

  lemma ResumingCalls(w: World, key: SessionKey, pid: string, room: bool)
    requires Valid(w.sh.broker) && MapsValid(w.sh.broker) && key in w.sessions && w.sessions[key].handoff.Ready?
    requires room <==> Parks(w.sh, key, w.sessions[key], pid)
    ensures ApplyAll(w.sh.broker, Parking(w, key, pid, room)) == Resume(w.sh, key, w.sessions[key], pid).0.broker
  {
    hide Valid, MapsValid, Create, CancelScope, Close, ApplyAll, Cancels, Release;
    var s := w.sessions[key];
    var t := Rejected(s.(handoff := NoPromise, drain := Idle), s.handoff.frame);
    if s.gate || |w.sh.byPublic| >= w.sh.maxLive {
      CloseCancels(w, w.sh.broker, key, t);
    } else {
      var call: Call := BrokerRuns.DoCreate(KeyFor(key, s, pid), Some(ClaudeSession(key)), false);
      if room {
        OneCall(w.sh.broker, call);
        assert [call] + [] == [call];
      } else {
        CreateAndCancel(w, call, key);
        ValidMaps(BrokerRuns.Apply(w.sh.broker, call));
        CloseCancels(w, BrokerRuns.Apply(w.sh.broker, call), key, t.(gate := false, parked := None, publicId := None));
      }
    }
  }

  lemma ClaimingCalls(w: World, rid: string, pid: string, profile: Profile, text: string)
    requires Valid(w.sh.broker) && MapsValid(w.sh.broker)
    requires ClaimsForeign(w, pid, profile)
        <==> ClaimByPublicId(w.sh.broker, pid, Some(profile)).1.outcome == OutResolved
             && !KeptHere(w, ClaimByPublicId(w.sh.broker, pid, Some(profile)).1.context)
    ensures ApplyAll(w.sh.broker, Claiming(w, pid, profile)) == AfterClaim(w, rid, pid, profile, text).sh.broker
  {
    hide Valid, MapsValid, ClaimByPublicId, CancelScope, ApplyAll, AfterClaim, ClaimsForeign;
    ClaimedBroker(w, rid, pid, profile, text);
    var claim: Call := BrokerRuns.DoClaimPublic(pid, Some(profile));
    OneCall(w.sh.broker, claim);
    assert [claim] + [] == [claim];
    TwoCalls(w.sh.broker, claim, BrokerRuns.DoCancelScope(Filter(Some(Claude), None)));
  }

  /** A context that does not make the claim cancel anything: none, or a session of this adapter. */
  predicate KeptHere(w: World, context: Option<Owner>) {
    context == None || (context.value.ClaudeSession? && context.value.key in w.sessions)
  }

  lemma ClaimedOwner(w: World, pid: string, profile: Profile)
    requires Core(w) && Valid(w.sh.broker)
    ensures ClaimsForeign(w, pid, profile)
        <==> ClaimByPublicId(w.sh.broker, pid, Some(profile)).1.outcome == OutResolved
             && !KeptHere(w, ClaimByPublicId(w.sh.broker, pid, Some(profile)).1.context)
  {
    hide Core, Valid, MapsValid, ClaimByPublicId;
    ValidIndex(w.sh.broker);
    BrokerRuns.ClaimIsExact(w.sh.broker, pid, Some(profile));
    if pid in w.sh.broker.publicIndex.items {
      ForeignIsNotOurs(w, pid);
    }
  }

  /** What a claim leaves of the broker. */
  lemma ClaimedBroker(w: World, rid: string, pid: string, profile: Profile, text: string)
    requires MapsValid(w.sh.broker)
    ensures var (b, claim) := ClaimByPublicId(w.sh.broker, pid, Some(profile));
            && MapsValid(b)
            && AfterClaim(w, rid, pid, profile, text).sh.broker
                 == if claim.outcome != OutResolved || KeptHere(w, claim.context) then b
                    else CancelScope(b, EveryClaude())
  {
    hide MapsValid, ClaimByPublicId, CancelScope, Release;
    ClaimLeavesMaps(w.sh.broker, pid, profile);
  }

  lemma OwnsIsDropped(c: Control, socket: Socket)
    ensures Owns(c, socket) <==> DropSocket(c, socket).1
  {
    var d := DropSocket(c, socket).0;
    if Owns(c, socket) {
      var f :| f in c.pending && c.pending[f] == socket;
      ClaudeAnswers.DroppedFrames(c, socket, f);
    } else {
      assert d.pending == c.pending;
    }
  }

  // ---- a step of the world is its calls of the broker ----

  /** The steps that are of one session alone: of these only those that close it reach the broker. */
  lemma EventOfOneSession(w: World, step: Step)
    requires Valid(w.sh.broker) && MapsValid(w.sh.broker) && Enabled(w, step)
    requires !step.ResumeCall? && !step.ClaimResult? && !step.BrokerTtl?
    requires !step.OtherCreates? && !step.OtherClaims? && !step.OtherFails? && !step.OtherCancels?
    ensures After(w, step).sh.broker == ApplyAll(w.sh.broker, CallsOf(w, step))
  {
    hide Valid, MapsValid, Close, ApplyAll, Cancels, DropSocket, CloseControl, Release, Arrive, Loop;
    NoCall(w.sh.broker);
    match step
    case LoopTop(key) => TerminatedCloses(w.sh, key, w.sessions[key].(drain := Idle));
    case DrainEnds(key) => CloseCancels(w, w.sh.broker, key, w.sessions[key].(drain := Idle));
    case SessionTtl(key) => CloseCancels(w, w.sh.broker, key, w.sessions[key]);
    case CancelRequest(rid) => CloseCancels(w, w.sh.broker, w.sh.byRequest[rid], w.sessions[w.sh.byRequest[rid]]);
    case SocketGone(key, socket) =>
      var s := w.sessions[key];
      OwnsIsDropped(s.control, socket);
      CloseCancels(w, w.sh.broker, key, s.(control := DropSocket(s.control, socket).0));
    case _ =>
  }

  /** The broker's own deadline, and what other adapters ask of it. */
  lemma EventOfTheBroker(w: World, step: Step)
    requires Valid(w.sh.broker) && MapsValid(w.sh.broker) && Enabled(w, step)
    requires step.BrokerTtl? || step.OtherCreates? || step.OtherClaims? || step.OtherFails? || step.OtherCancels?
    ensures After(w, step).sh.broker == ApplyAll(w.sh.broker, CallsOf(w, step))
  {
    hide Valid, MapsValid, Create, CancelScope, Fail, ClaimByPublicId, ApplyAll;
    OneCall(w.sh.broker, CallsOf(w, step)[0]);
  }

  /** A call handed to the drain, and a claim. */
  lemma EventOfACall(w: World, step: Step)
    requires Core(w) && Valid(w.sh.broker) && MapsValid(w.sh.broker) && Enabled(w, step)
    requires step.ResumeCall? || step.ClaimResult?
    ensures After(w, step).sh.broker == ApplyAll(w.sh.broker, CallsOf(w, step))
  {
    hide Core, Valid, MapsValid, Resume, AfterClaim, ClaimByPublicId, ApplyAll, Claiming, ClaimsForeign, KeptHere,
        Parks, Parking, ClaudeAnswers.Room;
    match step
    case ResumeCall(key, pid) =>
      ClaudeAnswers.ParksExactly(w, key, pid);
      ResumingCalls(w, key, pid, ClaudeAnswers.Room(w, key, pid));
    case ClaimResult(rid, pid, profile, text) =>
      ClaimedOwner(w, pid, profile);
      ClaimingCalls(w, rid, pid, profile, text);
  }

  /** An enabled step changes the shared broker by the calls its event makes, and in no other way. */
  lemma StepIsItsCalls(w: World, step: Step)
    requires Core(w) && Enabled(w, step)
    ensures Valid(w.sh.broker)
    ensures Follow(w, step).sh.broker == ApplyAll(w.sh.broker, CallsOf(w, step))
  {
    hide Core, Valid, MapsValid, Enabled, After, CallsOf, ApplyAll;
    CoreParts(w, "");
    match step
    case ResumeCall(_, _) => EventOfACall(w, step);
    case ClaimResult(_, _, _, _) => EventOfACall(w, step);
    case BrokerTtl(_) => EventOfTheBroker(w, step);
    case OtherCreates(_, _) => EventOfTheBroker(w, step);
    case OtherClaims(_, _) => EventOfTheBroker(w, step);
    case OtherFails(_) => EventOfTheBroker(w, step);
    case OtherCancels(_, _) => EventOfTheBroker(w, step);
    case _ => EventOfOneSession(w, step);
  }

  lemma TerminatedCloses(sh: Shared, key: SessionKey, s: Session)
    requires MapsValid(sh.broker)
    ensures s.terminated ==> Close(sh, key, s).0 == sh
  {
  }

  // ---- whole runs ----

  /** The calls of the broker a run of the world makes, in order. */
  ghost function Tape(maxLive: nat, maxPending: nat, steps: seq<Step>): seq<Call>
    decreases |steps|
  {
    if steps == [] then []
    else
      var before := steps[..|steps| - 1];
      var w := Run(maxLive, maxPending, before);
      Tape(maxLive, maxPending, before) + (if Enabled(w, steps[|before|]) then CallsOf(w, steps[|before|]) else [])
  }

  /** In every run of the world the shared broker is that of a run of its own operations. */
  lemma {:induction false} BrokerIsARun(maxLive: nat, maxPending: nat, steps: seq<Step>)
    ensures Run(maxLive, maxPending, steps).sh.broker
         == BrokerRuns.Run(maxPending, Tape(maxLive, maxPending, steps))
    decreases |steps|
  {
    hide Core, Follow, CallsOf, Valid;
    if steps != [] {
      var before := steps[..|steps| - 1];
      var w := Run(maxLive, maxPending, before);
      BrokerIsARun(maxLive, maxPending, before);
      if Enabled(w, steps[|before|]) {
        StepIsItsCalls(w, steps[|before|]);
        RunThenCalls(maxPending, Tape(maxLive, maxPending, before), CallsOf(w, steps[|before|]));
      } else {
        DisabledChangesNothing(w, steps[|before|]);
        assert Tape(maxLive, maxPending, steps) == Tape(maxLive, maxPending, before);
      }
    }
  }

  lemma DisabledChangesNothing(w: World, step: Step)
    requires Core(w) && !Enabled(w, step)
    ensures Follow(w, step) == w
  {
    hide Core, Enabled;
  }

  /** A run that returned is forgotten: nothing else changes, and cancelling its request does nothing. */
  lemma ReturnedRunIsForgotten(w: World, rid: string)
    requires Core(w) && Enabled(w, RunReturns(rid))
    ensures var w' := Follow(w, RunReturns(rid));
            && w' == w.(sh := w.sh.(byRequest := w'.sh.byRequest))
            && (forall r :: r in w'.sh.byRequest <==> r in w.sh.byRequest && r != rid)
            && (forall r :: r in w'.sh.byRequest ==> w'.sh.byRequest[r] == w.sh.byRequest[r])
            && Follow(w', CancelRequest(rid)) == w'
  {
    hide Core, MapsValid;
    CoreMaps(w);
    CoreMaps(Follow(w, RunReturns(rid)));
  }

  /** The broker's own deadline ends the entry and leaves every session and both maps as they were. */
  lemma BrokerDeadlineEndsTheCall(w: World, id: string)
    requires Core(w) && id in w.sh.broker.entries.items
    ensures var w' := Follow(w, BrokerTtl(id));
            && w' == w.(sh := w.sh.(broker := w'.sh.broker))
            && w'.sh.broker.entries.items == w.sh.broker.entries.items - {id}
            && forall p :: p in w'.sh.broker.publicIndex.items
                 <==> p in w.sh.broker.publicIndex.items && w.sh.broker.publicIndex.items[p] != id
  {
    hide Core, Valid, MapsValid;
    CoreParts(w, "");
    EndedEntry(w.sh.broker, id);
  }

  lemma EndedEntry(b: State<Owner>, id: string)
    requires Valid(b) && id in b.entries.items
    ensures Fail(b, id, Expired).entries.items == b.entries.items - {id}
    ensures forall p :: p in Fail(b, id, Expired).publicIndex.items
              <==> p in b.publicIndex.items && b.publicIndex.items[p] != id
  {
  }
}
