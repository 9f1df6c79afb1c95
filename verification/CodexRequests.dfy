/**
 * Which requests of the Codex app-server reach a pump and which of them are parked, on the fields of the
 * requests themselves: over every run a pump is only offered tool calls of the thread and turn it asked
 * for, and only a complete call of a declared tool, in the client's own namespace and under an
 * authenticated profile, is parked.
 */
module CodexRequests {
  import opened Options
  import opened BrokerKeys
  import opened BrokerSpec
  import BrokerRuns
  import opened CodexWire
  import CodexClient

  // ---- the fields of a request ----

  /** Every id that the waiter gave is the request's own. */
  predicate Covers(scope: CodexClient.Scope, r: Request) {
    && (scope.threadId.Some? ==> r.threadId.Some? && r.threadId.value == scope.threadId.value)
    && (scope.turnId.Some? ==> r.turnId.Some? && r.turnId.value == scope.turnId.value)
  }

  predicate Given(field: Option<string>) {
    field.Some? && |field.value| > 0
  }

  /** A call with its whole identity, in the client's own namespace, of a tool that was declared. */
  predicate Proper(r: Request, declared: set<string>) {
    && Given(r.callId) && Given(r.threadId) && Given(r.turnId) && r.hasArguments
    && Given(r.tool) && r.tool.value in declared
    && r.ns.Some? && r.ns.value == "cmm_client"
  }

  lemma AwaitsCovers(w: ToolWaiter, r: Request)
    ensures Awaits(w, r) <==> Covers(w.scope, r)
  {
  }

  lemma AcceptableIsProper(r: Request, declared: set<string>, caller: Option<Profile>)
    ensures Acceptable(r, declared, caller) <==> Proper(r, declared) && caller.Some?
  {
  }

  // ---- one request ----

  /**
   * A tool call goes to the oldest waiter whose ids it carries, which is then spent. A tool call that none covers is
   * answered as failed, and every other request is declined, both at once.
   */
  lemma RequestIsDecided(s: Wires, r: Request, i: nat)
    requires i <= |s.waiters| && (i < |s.waiters| ==> Covers(s.waiters[i].scope, r))
    requires forall j :: 0 <= j < i ==> !Covers(s.waiters[j].scope, r)
    ensures var t := Receive(s, r);
            && t.seen == s.seen + {r.id} && t.broker == s.broker && t.parkedAs == s.parkedAs
            && (r.kind == ToolCall && i < |s.waiters| ==>
                  && t.offered == s.offered[s.waiters[i].id := r] && t.replies == s.replies
                  && t.waiters == s.waiters[..i] + s.waiters[i + 1..])
            && (r.kind != ToolCall || i == |s.waiters| ==>
                  && t.offered == s.offered && t.waiters == s.waiters
                  && t.replies == (if s.stopped then s.replies
                                   else s.replies + [Reply(r.id, if r.kind == ToolCall then Failure else Decline)]))
  {
    hide Covers, Awaits;
    forall j | 0 <= j < |s.waiters| ensures Awaits(s.waiters[j], r) <==> Covers(s.waiters[j].scope, r) {
      AwaitsCovers(s.waiters[j], r);
    }
    assert FirstAwaiting(s.waiters, r) == i;
  }

  /** There is room in the broker for a call under this key and public id. */
  predicate HasRoom(b: State<Call>, profile: Profile, threadId: string, turnId: string, pid: string) {
    && threadId != "" && pid != "" && |b.entries.items| < b.maxPending
    && Compose(profile, Chatgpt, threadId, turnId, pid) !in b.entries.items
    && pid !in b.publicIndex.items && pid !in b.publicTerminal.items
  }

  /**
   * A pump that looks at its request parks it exactly when it is proper, the run has a profile and the broker has room;
   * it is answered as failed at once exactly when it is not proper or there is no profile.
   */
  lemma LookIsDecided(s: Wires, waiter: nat, threadId: string, turnId: string, declared: set<string>,
      caller: Option<Profile>, pid: string)
    requires CodexWire.Ok(s) && MapsValid(s.broker) && waiter in s.offered && !s.stopped && pid !in s.minted
    ensures var r := s.offered[waiter];
            var t := Handle(s, waiter, threadId, turnId, declared, caller, pid, false);
            var proper := Proper(r, declared) && caller.Some?;
            && t.replies == (if proper then s.replies else s.replies + [Reply(r.id, Failure)])
            && (r.id in t.parkedAs <==> proper && HasRoom(s.broker, caller.value, threadId, turnId, pid))
            && (r.id in t.parkedAs ==> t.parkedAs[r.id] == (pid, caller.value))
  {
    var r := s.offered[waiter];
    var key := BrokerKey(caller, Chatgpt, threadId, Some(turnId), pid, Some(pid));
    WireBroker(s);
    AcceptableIsProper(r, declared, caller);
    PumpDecides(s, waiter, threadId, turnId, declared, caller, pid);
    BrokerRuns.CreationIsRefusedExactly(s.broker, key, Some(Wire(r.id)), false);
    hide CodexWire.Ok, Valid, MapsValid, Create, Compose, Handle, Acceptable, Proper;
  }

  lemma WireBroker(s: Wires)
    requires CodexWire.Ok(s)
    ensures Valid(s.broker)
  {
    hide OffersOk, EntriesOk, RepliesOk, TapesOk, Valid;
  }

  // ---- whole runs ----

  /** The scopes under which waiters were armed, in order. */
  function Armed(steps: seq<Step>): seq<CodexClient.Scope> {
    if steps == [] then []
    else
      var last := steps[|steps| - 1];
      Armed(steps[..|steps| - 1]) + if last.ArmWaiter? then [last.scope] else []
  }

  /** Every waiter has the scope it was armed with, and whatever a waiter was given is a tool call that this covers. */
  ghost predicate OffersCovered(armed: seq<CodexClient.Scope>, s: Wires) {
    && |armed| == s.nextWaiter
    && (forall w :: w in s.waiters ==> w.id < |armed| && w.scope == armed[w.id])
    && (forall k :: k in s.offered ==>
          k < |armed| && s.offered[k].kind == ToolCall && Covers(armed[k], s.offered[k]))
  }

  lemma ReceivedIsCovered(armed: seq<CodexClient.Scope>, s: Wires, r: Request)
    requires OffersCovered(armed, s)
    ensures OffersCovered(armed, Receive(s, r))
  {
    hide Covers;
    var i := FirstAwaiting(s.waiters, r);
    if i < |s.waiters| {
      assert s.waiters[i] in s.waiters;
      AwaitsCovers(s.waiters[i], r);
    }
    hide FirstAwaiting, Awaits;
  }

  lemma FewerIsCovered(armed: seq<CodexClient.Scope>, s: Wires, t: Wires)
    requires OffersCovered(armed, s) && t.nextWaiter == s.nextWaiter && (forall w :: w in t.waiters ==> w in s.waiters)
    requires forall k :: k in t.offered ==> k in s.offered && t.offered[k] == s.offered[k]
    ensures OffersCovered(armed, t)
  {
    hide Covers;
  }

  lemma ArmedIsCovered(armed: seq<CodexClient.Scope>, s: Wires, scope: CodexClient.Scope)
    requires OffersCovered(armed, s)
    ensures OffersCovered(armed + [scope],
                          s.(waiters := s.waiters + [ToolWaiter(s.nextWaiter, scope)], nextWaiter := s.nextWaiter + 1))
  {
    hide Covers;
    var more := armed + [scope];
    assert forall k :: 0 <= k < |armed| ==> more[k] == armed[k];
  }

  lemma StepIsCovered(armed: seq<CodexClient.Scope>, s: Wires, step: Step)
    requires OffersCovered(armed, s) && MapsValid(s.broker) && Enabled(s, step)
    ensures OffersCovered(armed + (if step.ArmWaiter? then [step.scope] else []), After(s, step))
  {
    hide MapsValid, OffersCovered, Create, Fail, CancelScope, ClaimByPublicId, CodexClient.Keep, Receive, Acceptable;
    assert armed + [] == armed;
    match step
    case Arrives(r) => ReceivedIsCovered(armed, s, r);
    case ArmWaiter(scope) => ArmedIsCovered(armed, s, scope);
    case _ => FewerIsCovered(armed, s, After(s, step));
  }

  lemma {:induction false} RunIsCovered(maxPending: nat, steps: seq<Step>)
    ensures OffersCovered(Armed(steps), Run(maxPending, steps))
    decreases |steps|
  {
    hide CodexWire.Ok, OffersCovered, Follow;
    if steps == [] {
      NothingIsOffered(maxPending);
    } else {
      var front, step := steps[..|steps| - 1], steps[|steps| - 1];
      RunIsCovered(maxPending, front);
      FollowedIsCovered(Armed(front), Run(maxPending, front), step);
    }
  }

  lemma NothingIsOffered(maxPending: nat)
    ensures OffersCovered([], Start(maxPending))
  {
  }

  lemma FollowedIsCovered(armed: seq<CodexClient.Scope>, s: Wires, step: Step)
    requires CodexWire.Ok(s) && OffersCovered(armed, s)
    ensures OffersCovered(armed + (if step.ArmWaiter? then [step.scope] else []), Follow(s, step))
  {
    hide CodexWire.Ok, OffersCovered, After, MapsValid;
    BrokerMaps(s);
    if Enabled(s, step) {
      StepIsCovered(armed, s, step);
    } else {
      assert armed + [] == armed;
    }
  }

  /** In every run, a pump is offered only tool calls whose thread and turn are those it armed its waiter with. */
  lemma OfferedIsCovered(maxPending: nat, steps: seq<Step>, k: nat)
    requires k in Run(maxPending, steps).offered
    ensures k < |Armed(steps)|
    ensures var r, scope := Run(maxPending, steps).offered[k], Armed(steps)[k];
            && r.kind == ToolCall
            && (scope.threadId.Some? ==> r.threadId == scope.threadId)
            && (scope.turnId.Some? ==> r.turnId == scope.turnId)
  {
    hide CodexWire.Ok, Run, Armed;
    RunIsCovered(maxPending, steps);
  }

  /** The step is the look of a pump at request `w`, which is proper, under this public id and profile. */
  ghost predicate LooksAt(s: Wires, step: Step, w: WireId, pid: string, profile: Profile) {
    && step.PumpLooks? && step.pid == pid && step.caller == Some(profile)
    && step.waiter in s.offered && s.offered[step.waiter].id == w && Proper(s.offered[step.waiter], step.declared)
  }

  /** Step `j` of a run is the look of a pump that parked request `w` under `pid` and `profile`. */
  ghost predicate ParkedBy(maxPending: nat, steps: seq<Step>, j: nat, w: WireId, pid: string, profile: Profile) {
    j < |steps| && LooksAt(Run(maxPending, steps[..j]), steps[j], w, pid, profile)
  }

  lemma ParkedByLonger(maxPending: nat, steps: seq<Step>, j: nat, w: WireId, pid: string, profile: Profile)
    requires steps != [] && ParkedBy(maxPending, steps[..|steps| - 1], j, w, pid, profile)
    ensures ParkedBy(maxPending, steps, j, w, pid, profile)
  {
    hide CodexWire.Ok, Run, LooksAt;
    assert steps[..|steps| - 1][..j] == steps[..j];
  }

  lemma LookParks(s: Wires, step: Step, w: WireId)
    requires MapsValid(s.broker) && Enabled(s, step) && step.PumpLooks? && w in After(s, step).parkedAs
    ensures var (pid, profile) := After(s, step).parkedAs[w];
            (w in s.parkedAs && s.parkedAs[w] == (pid, profile)) || LooksAt(s, step, w, pid, profile)
  {
    AcceptableIsProper(s.offered[step.waiter], step.declared, step.caller);
    hide MapsValid, Create, Acceptable, Proper;
  }

  lemma OthersParkNothing(s: Wires, step: Step)
    requires MapsValid(s.broker) && Enabled(s, step) && !step.PumpLooks?
    ensures After(s, step).parkedAs == s.parkedAs
  {
    hide MapsValid, Receive, ClaimStep, Create, Fail, CancelScope, ClaimByPublicId, CodexClient.Keep;
    if step.Arrives? {
      ReceivingParksNothing(s, step.r);
    } else if step.Claimed? {
      ClaimParksNothing(s, step.pid, step.profile, step.text);
    }
  }

  /** A step parks a request only as the look of a pump at a proper one. */
  lemma StepParks(s: Wires, step: Step, w: WireId)
    requires CodexWire.Ok(s) && w in Follow(s, step).parkedAs
    ensures var (pid, profile) := Follow(s, step).parkedAs[w];
            (w in s.parkedAs && s.parkedAs[w] == (pid, profile)) || LooksAt(s, step, w, pid, profile)
  {
    hide CodexWire.Ok, MapsValid, After, Enabled, LooksAt;
    BrokerMaps(s);
    if Enabled(s, step) {
      if step.PumpLooks? {
        LookParks(s, step, w);
      } else {
        OthersParkNothing(s, step);
      }
    }
  }

  lemma ReceivingParksNothing(s: Wires, r: Request)
    ensures Receive(s, r).parkedAs == s.parkedAs
  {
    hide FirstAwaiting;
  }

  /**
   * In every run, a parked request was parked by the look of a pump at it, under that pump's own profile and fresh
   * public id, and it is a complete call, in the client's namespace, of a tool which that pump's run had declared.
   */
  lemma {:induction false} OnlyProperCallsAreParked(maxPending: nat, steps: seq<Step>, w: WireId)
    requires w in Run(maxPending, steps).parkedAs
    ensures var (pid, profile) := Run(maxPending, steps).parkedAs[w];
            exists j: nat :: ParkedBy(maxPending, steps, j, w, pid, profile)
    decreases |steps|
  {
    hide CodexWire.Ok, Follow, ParkedBy, LooksAt;
    if steps == [] {
      NothingParked(maxPending);
    } else {
      var n := |steps| - 1;
      var s, t := Run(maxPending, steps[..n]), Run(maxPending, steps);
      StepParks(s, steps[n], w);
      var (pid, profile) := t.parkedAs[w];
      if w in s.parkedAs && t.parkedAs[w] == s.parkedAs[w] {
        OnlyProperCallsAreParked(maxPending, steps[..n], w);
        var j: nat :| ParkedBy(maxPending, steps[..n], j, w, pid, profile);
        ParkedByLonger(maxPending, steps, j, w, pid, profile);
      } else {
        ParkedNow(maxPending, steps, w, pid, profile);
      }
    }
  }

  lemma ParkedNow(maxPending: nat, steps: seq<Step>, w: WireId, pid: string, profile: Profile)
    requires steps != [] && LooksAt(Run(maxPending, steps[..|steps| - 1]), steps[|steps| - 1], w, pid, profile)
    ensures ParkedBy(maxPending, steps, |steps| - 1, w, pid, profile)
  {
    hide CodexWire.Ok, Run, LooksAt;
  }
}
