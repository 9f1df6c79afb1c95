/**
 * The shared broker as the Codex wire uses it. Every step makes the calls of the broker that its event
 * calls for, on the fields of the request, and changes the broker in no other way, so the broker of any
 * run is that of a run of broker operations. What is no call of the broker changes waiters only.
 */
module CodexBroker {
  import opened Options
  import opened BrokerKeys
  import opened BrokerSpec
  import BrokerRuns
  import opened BrokerCalls
  import CodexClient
  import opened CodexWire
  import opened CodexRequests

  type BrokerCall = BrokerRuns.Op<Call>

  /** The calls of the broker an enabled step makes, in order. */
  ghost function CallsOf(s: Wires, step: Step): seq<BrokerCall>
    requires Enabled(s, step)
  {
    match step
    case PumpLooks(waiter, threadId, turnId, declared, caller, pid, aborted) =>
      if Proper(s.offered[waiter], declared) && caller.Some? then
        [BrokerRuns.DoCreate(BrokerKey(caller, Chatgpt, threadId, Some(turnId), pid, Some(pid)),
                             Some(Wire(s.offered[waiter].id)), aborted)]
      else []
    case Claimed(pid, profile, _) => [BrokerRuns.DoClaimPublic(pid, Some(profile))]
    case OtherClaims(pid, profile) => [BrokerRuns.DoClaimPublic(pid, Some(profile))]
    case Fails(id, how) => [if how == Expired then BrokerRuns.DoExpire(id) else BrokerRuns.DoAbort(id)]
    case Cancels(filter) => [BrokerRuns.DoCancelScope(filter)]
    case OtherCreates(key, aborted) => [BrokerRuns.DoCreate(key, Some(ForeignCall), aborted)]
    case _ => []
  }

  lemma EventIsItsCalls(s: Wires, step: Step)
    requires Valid(s.broker) && MapsValid(s.broker) && Enabled(s, step)
    ensures After(s, step).broker == ApplyAll(s.broker, CallsOf(s, step))
  {
    hide Valid, MapsValid, Create, CancelScope, Fail, ClaimByPublicId, ApplyAll, Receive, Acceptable, Proper;
    NoCall(s.broker);
    if step.PumpLooks? {
      AcceptableIsProper(s.offered[step.waiter], step.declared, step.caller);
    }
    if CallsOf(s, step) != [] {
      OneCall(s.broker, CallsOf(s, step)[0]);
    }
    if step.Arrives? {
      ReceiveSparesTheBroker(s, step.r);
    }
  }

  lemma ReceiveSparesTheBroker(s: Wires, r: Request)
    ensures Receive(s, r).broker == s.broker
  {
    hide FirstAwaiting;
  }

  /** A step changes the shared broker by the calls its event makes, and in no other way. */
  lemma StepIsItsCalls(s: Wires, step: Step)
    requires CodexWire.Ok(s) && Enabled(s, step)
    ensures Valid(s.broker)
    ensures Follow(s, step).broker == ApplyAll(s.broker, CallsOf(s, step))
  {
    hide CodexWire.Ok, Valid, MapsValid, Enabled, After, CallsOf, ApplyAll;
    WireBroker(s);
    BrokerMaps(s);
    EventIsItsCalls(s, step);
  }

  /** The calls of the broker a run makes, in order. */
  ghost function Tape(maxPending: nat, steps: seq<Step>): seq<BrokerCall>
    decreases |steps|
  {
    if steps == [] then []
    else
      var before := steps[..|steps| - 1];
      var s := Run(maxPending, before);
      Tape(maxPending, before) + (if Enabled(s, steps[|before|]) then CallsOf(s, steps[|before|]) else [])
  }

  /** In every run of the wire the shared broker is that of a run of its own operations. */
  lemma {:induction false} BrokerIsARun(maxPending: nat, steps: seq<Step>)
    ensures Run(maxPending, steps).broker == BrokerRuns.Run(maxPending, Tape(maxPending, steps))
    decreases |steps|
  {
    hide CodexWire.Ok, Follow, CallsOf, Valid;
    if steps != [] {
      var before := steps[..|steps| - 1];
      var s := Run(maxPending, before);
      BrokerIsARun(maxPending, before);
      if Enabled(s, steps[|before|]) {
        StepIsItsCalls(s, steps[|before|]);
        RunThenCalls(maxPending, Tape(maxPending, before), CallsOf(s, steps[|before|]));
      } else {
        DisabledChangesNothing(s, steps[|before|]);
        assert Tape(maxPending, steps) == Tape(maxPending, before);
      }
    }
  }

  lemma DisabledChangesNothing(s: Wires, step: Step)
    requires CodexWire.Ok(s) && !Enabled(s, step)
    ensures Follow(s, step) == s
  {
    hide CodexWire.Ok, Enabled;
  }

  /**
   * What concerns waiters concerns nothing else. A new waiter comes last, of the waiters exactly those that are
   * kept stay, and a stopped client keeps everything it has but will write nothing more.
   */
  lemma WaitersAreKept(s: Wires, scope: CodexClient.Scope, keep: set<nat>)
    requires CodexWire.Ok(s)
    ensures Follow(s, ArmWaiter(scope))
         == s.(waiters := s.waiters + [ToolWaiter(s.nextWaiter, scope)], nextWaiter := s.nextWaiter + 1)
    ensures var t := Follow(s, DropWaiters(keep));
            && t == s.(waiters := t.waiters)
            && forall w :: w in t.waiters <==> w in s.waiters && w.id in keep
    ensures Follow(s, Stops) == s.(stopped := true)
  {
    hide CodexWire.Ok, MapsValid;
    BrokerMaps(s);
  }

  /** A stopped client stays stopped, and writes nothing more. */
  lemma StoppedWritesNothing(s: Wires, step: Step)
    requires CodexWire.Ok(s) && s.stopped
    ensures Follow(s, step).stopped && Follow(s, step).replies == s.replies
  {
    hide CodexWire.Ok, MapsValid, Create, CancelScope, Fail, ClaimByPublicId, FirstAwaiting, Acceptable,
        CodexClient.Keep;
    BrokerMaps(s);
  }
}
