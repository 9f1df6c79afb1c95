/**
 * Who is given what by the Codex client, by names and ids.
 */
module CodexDelivery {
  import opened Options
  import opened CodexClient

  // Who is given what by the Codex client, on the fields of waits and notifications: a notification goes
  // only to a wait that asked for its name, thread and turn, it goes there as soon as it arrives, what is
  // let go with a turn or a run belongs to that turn or run, and a failure of the protocol rejects exactly
  // the waits of live runs.

  // ---- what a wait asks for ----

  /** A wait as it was asked for. */
  datatype Wait = Wait(names: set<string>, threadId: Option<string>, turnId: Option<string>)

  /** The name is one of those asked for, and every id that was given is the notification's own. */
  predicate Meets(w: Wait, n: Notification) {
    && n.name in w.names
    && (w.threadId.Some? ==> n.threadId.Some? && n.threadId.value == w.threadId.value)
    && (w.turnId.Some? ==> || (n.turnId.Some? && n.turnId.value == w.turnId.value)
                           || (n.nestedTurnId.Some? && n.nestedTurnId.value == w.turnId.value))
  }

  function NamesOf(names: seq<string>): set<string> {
    set name | name in names
  }

  /** What a registered waiter asks for. */
  function AskedBy(w: Waiter): Wait {
    Wait(NamesOf(w.names), w.scope.threadId, w.scope.turnId)
  }

  /** A wait is begun unless the protocol has failed and it names a thread or a turn. */
  predicate Begun(failed: bool, scope: Scope) {
    !(failed && (scope.threadId.Some? || scope.turnId.Some?))
  }

  /** The waits begun so far, after one more operation. A wait for any of several names also answers to a marker. */
  function AskedMore(asked: seq<Wait>, failed: bool, op: Op): seq<Wait> {
    match op
    case DoWaitForAny(names, scope) =>
      if Begun(failed, scope) then asked + [Wait(NamesOf(names) + {"__any__"}, scope.threadId, scope.turnId)] else asked
    case DoWaitFor(name, scope) =>
      if Begun(failed, scope) then asked + [Wait({name}, scope.threadId, scope.turnId)] else asked
    case _ => asked
  }

  /** The waits that were begun in a run, in order. */
  function Asked(ops: seq<Op>): seq<Wait> {
    if ops == [] then []
    else
      var front := ops[..|ops| - 1];
      AskedMore(Asked(front), Run(front).failed, ops[|ops| - 1])
  }

  lemma MatchesMeets(w: Waiter, n: Notification)
    ensures Matches(w, n) <==> Meets(AskedBy(w), n)
  {
  }

  // ---- a notification that arrives ----

  /** The three kinds that a run may be about to wait for. */
  predicate Kept(name: string) {
    name == "item/agentMessage/delta" || name == "thread/tokenUsage/updated" || name == "turn/completed"
  }

  /** The buffer holds the latest sixty-four. */
  function Latest(queue: seq<Notification>): seq<Notification> {
    if |queue| > 64 then queue[|queue| - 64..] else queue
  }

  /**
   * A notification that meets a registered wait is delivered to the oldest such wait when it arrives, and is not
   * buffered; only the end of a turn may let anything go with it. Any other is buffered if it is of a kind that is
   * kept, the oldest giving way, and is let go if not.
   */
  lemma ArrivalIsDecided(c: Client, name: string, threadId: Option<string>, turnId: Option<string>,
      nested: Option<string>, i: nat)
    requires i <= |c.waiters| && |c.queue| <= 64
    requires var n := Notification(c.arrived, name, threadId, turnId, nested);
             && (i < |c.waiters| ==> Meets(AskedBy(c.waiters[i]), n))
             && forall j :: 0 <= j < i ==> !Meets(AskedBy(c.waiters[j]), n)
    ensures var n := Notification(c.arrived, name, threadId, turnId, nested);
            var t := Arrive(c, name, threadId, turnId, nested);
            && t.arrived == c.arrived + 1 && t.nextWaiter == c.nextWaiter && t.failed == c.failed
            && (i < |c.waiters| ==>
                  && t.waiters == c.waiters[..i] + c.waiters[i + 1..] && (forall m :: m in t.queue ==> m in c.queue)
                  && c.events + [Delivered(c.waiters[i].id, n)] <= t.events
                  && (name != "turn/completed" ==>
                        t.queue == c.queue && t.events == c.events + [Delivered(c.waiters[i].id, n)]))
            && (i == |c.waiters| ==> t.waiters == c.waiters)
            && (i == |c.waiters| && Kept(name) ==> t.queue == Latest(c.queue + [n]))
            && (i == |c.waiters| && !Kept(name) ==> t.queue == c.queue && t.events == c.events + [Dropped(n)])
  {
    hide Keep, Select, Drops, Meets, AskedBy, Matches, InScope;
    var n := Notification(c.arrived, name, threadId, turnId, nested);
    forall j | 0 <= j < |c.waiters| ensures Matches(c.waiters[j], n) <==> Meets(AskedBy(c.waiters[j]), n) {
      MatchesMeets(c.waiters[j], n);
    }
    assert FirstWaiter(c.waiters, n) == i;
  }

  // ---- what is let go with a turn or a run ----

  /** The notification carries the ids that were given: this thread, and this turn in either place. */
  predicate Carries(n: Notification, threadId: Option<string>, turnId: Option<string>) {
    && (threadId.Some? ==> n.threadId.Some? && n.threadId.value == threadId.value)
    && (turnId.Some? ==> || (n.turnId.Some? && n.turnId.value == turnId.value)
                         || (n.nestedTurnId.Some? && n.nestedTurnId.value == turnId.value))
  }

  /** The waiter was registered under the ids that were given. */
  predicate Under(w: Waiter, threadId: Option<string>, turnId: Option<string>) {
    && (threadId.Some? ==> w.scope.threadId.Some? && w.scope.threadId.value == threadId.value)
    && (turnId.Some? ==> w.scope.turnId.Some? && w.scope.turnId.value == turnId.value)
    && (w.scope.threadId.Some? || w.scope.turnId.Some?)
  }

  lemma ScopeCarries(scope: Scope, n: Notification)
    ensures InScope(scope, n) <==> Carries(n, scope.threadId, scope.turnId)
  {
  }

  lemma ReleasedIsUnder(scope: Scope, w: Waiter)
    ensures Released(scope, w) <==> Under(w, scope.threadId, scope.turnId)
  {
  }

  /**
   * In every run, releasing a run's ids lets go of exactly the buffered notifications that carry them and rejects
   * exactly the waiters registered under them. Releasing nothing does nothing.
   */
  lemma ReleaseGoesByIds(ops: seq<Op>, scope: Scope)
    ensures var c, t := Run(ops), Run(ops + [DoDiscard(scope)]);
            if scope.threadId.None? && scope.turnId.None? then t == c else ReleasedByIds(c, t, scope)
  {
    assert (ops + [DoDiscard(scope)])[..|ops|] == ops;
    var c, t := Run(ops), Run(ops + [DoDiscard(scope)]);
    assert t == Discard(c, scope);
    hide Run, ReleasedByIds;
    if scope.threadId.Some? || scope.turnId.Some? {
      DiscardGoesByIds(c, scope);
    }
  }

  ghost predicate ReleasedByIds(c: Client, t: Client, scope: Scope) {
    && (forall n :: n in t.queue <==> n in c.queue && !Carries(n, scope.threadId, scope.turnId))
    && (forall n | n in c.queue && n !in t.queue :: Dropped(n) in t.events)
    && (forall w :: w in t.waiters <==> w in c.waiters && !Under(w, scope.threadId, scope.turnId))
    && (forall w | w in c.waiters && w !in t.waiters :: WaiterRejected(w.id) in t.events)
  }

  lemma DiscardGoesByIds(c: Client, scope: Scope)
    requires scope.threadId.Some? || scope.turnId.Some?
    ensures ReleasedByIds(c, Discard(c, scope), scope)
  {
    hide Discard, Carries, Under, InScope, Released;
    DiscardIsExact(c, scope);
    DiscardEvents(c, scope);
    forall n ensures InScope(scope, n) <==> Carries(n, scope.threadId, scope.turnId) {
      ScopeCarries(scope, n);
    }
    forall w ensures Released(scope, w) <==> Under(w, scope.threadId, scope.turnId) {
      ReleasedIsUnder(scope, w);
    }
  }

  /**
   * In every run, the end of a turn that is handed to a waiter on arrival lets go of exactly the buffered notifications
   * that carry its thread and its turn, and an end without ids lets go of none.
   */
  lemma CompletionGoesByIds(ops: seq<Op>, threadId: Option<string>, turnId: Option<string>, nested: Option<string>)
    requires exists w :: w in Run(ops).waiters
               && Meets(AskedBy(w), Notification(Run(ops).arrived, "turn/completed", threadId, turnId, nested))
    ensures var c, t := Run(ops), Run(ops + [DoArrive("turn/completed", threadId, turnId, nested)]);
            var turn := if turnId.Some? then turnId else nested;
            && (forall m | m in c.queue :: m in t.queue <==>
                (threadId.None? && turn.None?) || !Carries(m, threadId, turn))
            && (forall m :: m in t.queue ==> m in c.queue)
            && (forall m | m in c.queue && m !in t.queue :: Dropped(m) in t.events)
  {
    var op := DoArrive("turn/completed", threadId, turnId, nested);
    assert (ops + [op])[..|ops|] == ops;
    var c, t := Run(ops), Run(ops + [op]);
    var n := Notification(c.arrived, "turn/completed", threadId, turnId, nested);
    hide Run, Carries, InScope, Meets, AskedBy, Matches;
    assert t == Arrive(c, n.name, n.threadId, n.turnId, n.nestedTurnId);
    var w :| w in c.waiters && Meets(AskedBy(w), n);
    MatchesMeets(w, n);
    PurgeEffect(c, n);
    forall m ensures InScope(ClosedBy(n), m) <==> Carries(m, ClosedBy(n).threadId, ClosedBy(n).turnId) {
      ScopeCarries(ClosedBy(n), m);
    }
    hide Arrive;
  }

  // ---- who was given what, over whole runs ----

  /** Every waiter asks for what its wait asked for, and whatever was delivered met the wait it was delivered to. */
  ghost predicate Served(asked: seq<Wait>, waiters: seq<Waiter>, events: seq<Event>, nextWaiter: nat) {
    && |asked| == nextWaiter
    && (forall w :: w in waiters ==> w.id < |asked| && AskedBy(w) == asked[w.id])
    && (forall e :: e in events && e.Delivered? ==> e.waiter < |asked| && Meets(asked[e.waiter], e.n))
  }

  lemma ServedFewer(asked: seq<Wait>, c: Client, waiters: seq<Waiter>, more: seq<Event>)
    requires Served(asked, c.waiters, c.events, c.nextWaiter) && (forall w :: w in waiters ==> w in c.waiters)
    requires forall e :: e in more ==> !e.Delivered?
    ensures Served(asked, waiters, c.events + more, c.nextWaiter)
  {
    hide Meets, AskedBy;
    assert forall e :: e in c.events + more ==> e in c.events || e in more;
  }

  lemma NothingDelivered(queue: seq<Notification>, waiters: seq<Waiter>)
    ensures forall e :: e in Drops(queue) + Rejects(waiters) ==> !e.Delivered?
    ensures forall e :: e in Drops(queue) ==> !e.Delivered?
    ensures forall e :: e in Rejects(waiters) ==> !e.Delivered?
  {
  }

  lemma PurgedServes(asked: seq<Wait>, c: Client, scope: Scope)
    requires Served(asked, c.waiters, c.events, c.nextWaiter)
    ensures var t := Purged(c, scope); Served(asked, t.waiters, t.events, t.nextWaiter)
  {
    hide Served;
    var gone := (n: Notification) => InScope(scope, n);
    NothingDelivered(Select(c.queue, gone), []);
    ServedFewer(asked, c, c.waiters, Drops(Select(c.queue, gone)));
  }

  lemma GivenServes(asked: seq<Wait>, c: Client, waiters: seq<Waiter>, id: nat, n: Notification)
    requires Served(asked, c.waiters, c.events, c.nextWaiter) && (forall w :: w in waiters ==> w in c.waiters)
    requires id < |asked| && Meets(asked[id], n)
    ensures Served(asked, waiters, c.events + [Delivered(id, n)], c.nextWaiter)
  {
    hide Meets, AskedBy;
  }

  lemma ArriveServes(asked: seq<Wait>, c: Client, name: string, threadId: Option<string>, turnId: Option<string>,
      nested: Option<string>)
    requires Served(asked, c.waiters, c.events, c.nextWaiter)
    ensures var t := Arrive(c, name, threadId, turnId, nested);
            Served(asked, t.waiters, t.events, t.nextWaiter)
  {
    hide Purged, Drops, Supported;
    var n := Notification(c.arrived, name, threadId, turnId, nested);
    var i := FirstWaiter(c.waiters, n);
    if i < |c.waiters| {
      var w := c.waiters[i];
      assert w in c.waiters;
      MatchesMeets(w, n);
      GivenServes(asked, c, Without(c.waiters, i), w.id, n);
      var c2 := c.(arrived := c.arrived + 1, waiters := Without(c.waiters, i),
                   events := c.events + [Delivered(w.id, n)]);
      hide Served, FirstWaiter;
      PurgedServes(asked, c2, ClosedBy(n));
    } else {
      hide Served, FirstWaiter;
      var queue := c.queue + [n];
      var over := if |queue| > LIMIT then |queue| - LIMIT else 0;
      NothingDelivered(queue[..over], []);
      ServedFewer(asked, c, c.waiters, Drops(queue[..over]));
      ServedFewer(asked, c, c.waiters, [Dropped(n)]);
    }
  }

  lemma RejectServes(asked: seq<Wait>, c: Client, p: Waiter -> bool)
    requires Served(asked, c.waiters, c.events, c.nextWaiter)
    ensures Served(asked, Keep(c.waiters, p), c.events + Rejects(Select(c.waiters, p)), c.nextWaiter)
  {
    hide Served;
    NothingDelivered([], Select(c.waiters, p));
    ServedFewer(asked, c, Keep(c.waiters, p), Rejects(Select(c.waiters, p)));
  }

  lemma DiscardServes(asked: seq<Wait>, c: Client, scope: Scope)
    requires Served(asked, c.waiters, c.events, c.nextWaiter)
    ensures var t := Discard(c, scope); Served(asked, t.waiters, t.events, t.nextWaiter)
  {
    hide Served, Purged, Keep, Select, Rejects;
    PurgedServes(asked, c, scope);
    RejectServes(asked, Purged(c, scope), (w: Waiter) => Released(scope, w));
  }

  lemma FailServes(asked: seq<Wait>, c: Client)
    requires Served(asked, c.waiters, c.events, c.nextWaiter)
    ensures var t := Fail(c); Served(asked, t.waiters, t.events, t.nextWaiter)
  {
    hide Served, Keep, Select, Rejects, Drops;
    var scoped := (w: Waiter) => Scoped(w.scope);
    var stale := Select(c.waiters, scoped);
    NothingDelivered(c.queue, stale);
    RejectServes(asked, c, scoped);
    ServedFewer(asked, c.(waiters := Keep(c.waiters, scoped), events := c.events + Rejects(stale)),
                Keep(c.waiters, scoped), Drops(c.queue));
  }

  lemma RegisteredServes(asked: seq<Wait>, c: Client, w: Waiter)
    requires Served(asked, c.waiters, c.events, c.nextWaiter) && w.id == c.nextWaiter
    ensures Served(asked + [AskedBy(w)], c.waiters + [w], c.events, c.nextWaiter + 1)
  {
    hide Meets, AskedBy;
    var more := asked + [AskedBy(w)];
    assert forall k :: 0 <= k < |asked| ==> more[k] == asked[k];
  }

  lemma TakenServes(asked: seq<Wait>, c: Client, wait: Wait, n: Notification)
    requires Served(asked, c.waiters, c.events, c.nextWaiter) && Meets(wait, n)
    ensures Served(asked + [wait], c.waiters, c.events + [Delivered(c.nextWaiter, n)], c.nextWaiter + 1)
  {
    hide Meets, AskedBy;
    var more := asked + [wait];
    assert forall k :: 0 <= k < |asked| ==> more[k] == asked[k];
  }

  lemma WaitServes(asked: seq<Wait>, c: Client, names: seq<string>, extra: seq<string>, scope: Scope)
    requires Served(asked, c.waiters, c.events, c.nextWaiter)
    ensures var t := WaitAny(c, names, extra, scope).0;
            var wait := Wait(NamesOf(extra + names), scope.threadId, scope.turnId);
            Served(if Begun(c.failed, scope) then asked + [wait] else asked, t.waiters, t.events, t.nextWaiter)
  {
    hide Served, FirstAwaited;
    var i := FirstAwaited(c.queue, names, scope);
    var wait := Wait(NamesOf(extra + names), scope.threadId, scope.turnId);
    if Begun(c.failed, scope) {
      if i < |c.queue| {
        ScopeCarries(scope, c.queue[i]);
        TakenServes(asked, c, wait, c.queue[i]);
      } else {
        RegisteredServes(asked, c, Waiter(c.nextWaiter, extra + names, scope));
      }
    }
  }

  lemma MarkedNames(names: seq<string>, name: string)
    ensures NamesOf([ANY] + names) == NamesOf(names) + {"__any__"} && NamesOf([] + [name]) == {name}
  {
  }

  lemma OpServes(asked: seq<Wait>, c: Client, op: Op)
    requires Served(asked, c.waiters, c.events, c.nextWaiter)
    ensures var t := Apply(c, op); Served(AskedMore(asked, c.failed, op), t.waiters, t.events, t.nextWaiter)
  {
    hide Served, Arrive, Discard, Fail, Keep, Select, WaitAny, NamesOf, Rejects, Begun;
    match op {
      case DoArrive(name, threadId, turnId, nested) => ArriveServes(asked, c, name, threadId, turnId, nested);
      case DoWaitForAny(names, scope) =>
        MarkedNames(names, "");
        WaitServes(asked, c, names, [ANY], scope);
      case DoWaitFor(name, scope) =>
        MarkedNames([], name);
        WaitServes(asked, c, [name], [], scope);
      case DoTimeOut(id) => RejectServes(asked, c, (w: Waiter) => w.id == id);
      case DoFail => FailServes(asked, c);
      case DoDiscard(scope) => DiscardServes(asked, c, scope);
    }
  }

  lemma {:induction false} RunServes(ops: seq<Op>)
    ensures var c := Run(ops); Served(Asked(ops), c.waiters, c.events, c.nextWaiter)
    decreases |ops|
  {
    if ops == [] {
    } else {
      hide Served, Apply, AskedMore;
      RunServes(ops[..|ops| - 1]);
      OpServes(Asked(ops[..|ops| - 1]), Run(ops[..|ops| - 1]), ops[|ops| - 1]);
    }
  }

  /**
   * In every run, whatever a wait was given it had asked for: one of its names, its thread if it gave one, and its turn
   * if it gave one, in either of the two places where a notification names its turn.
   */
  lemma DeliveredToWhoAskedForIt(ops: seq<Op>, e: Event)
    requires e in Run(ops).events && e.Delivered?
    ensures e.waiter < |Asked(ops)|
    ensures var w, n := Asked(ops)[e.waiter], e.n;
            && n.name in w.names
            && (w.threadId.Some? ==> n.threadId == w.threadId)
            && (w.turnId.Some? ==> n.turnId == w.turnId || n.nestedTurnId == w.turnId)
  {
    hide Run, Asked;
    RunServes(ops);
  }

  /** Waiter `i` is the oldest that the notification meets. */
  predicate OldestToMeet(waiters: seq<Waiter>, i: nat, n: Notification) {
    && i < |waiters| && Meets(AskedBy(waiters[i]), n)
    && forall j :: 0 <= j < i ==> !Meets(AskedBy(waiters[j]), n)
  }

  lemma SomeoneMeets(waiters: seq<Waiter>, w: Waiter, n: Notification) returns (i: nat)
    requires w in waiters && Meets(AskedBy(w), n)
    ensures OldestToMeet(waiters, i, n)
  {
    hide Meets, AskedBy;
    i := 0;
    while i < |waiters| && !Meets(AskedBy(waiters[i]), n)
      invariant i <= |waiters| && forall j :: 0 <= j < i ==> !Meets(AskedBy(waiters[j]), n)
    {
      i := i + 1;
    }
  }

  lemma MetIsDelivered(c: Client, i: nat, name: string, threadId: Option<string>, turnId: Option<string>,
      nested: Option<string>)
    requires CodexClient.Ok(c) && OldestToMeet(c.waiters, i, Notification(c.arrived, name, threadId, turnId, nested))
    ensures var n, t := Notification(c.arrived, name, threadId, turnId, nested),
                        Arrive(c, name, threadId, turnId, nested);
            Delivered(c.waiters[i].id, n) in t.events && n !in t.queue
  {
    hide CodexClient.Ok, Meets, AskedBy, Arrive;
    var n := Notification(c.arrived, name, threadId, turnId, nested);
    NewIsNotQueued(c, n);
    ArrivalIsDecided(c, name, threadId, turnId, nested, i);
    assert (c.events + [Delivered(c.waiters[i].id, n)])[|c.events|]
        in Arrive(c, name, threadId, turnId, nested).events;
  }

  /**
   * In every run, a notification whose name and ids are those of a registered waiter is delivered when it arrives, to
   * the oldest such waiter, and is never buffered.
   */
  lemma AwaitedIsDeliveredOnArrival(ops: seq<Op>, w: Waiter, name: string, threadId: Option<string>,
      turnId: Option<string>, nested: Option<string>) returns (i: nat)
    requires w in Run(ops).waiters
    requires name in w.names && (w.scope.threadId.Some? ==> threadId == w.scope.threadId)
    requires w.scope.turnId.Some? ==> turnId == w.scope.turnId || nested == w.scope.turnId
    ensures var c, t := Run(ops), Run(ops + [DoArrive(name, threadId, turnId, nested)]);
            var n := Notification(c.arrived, name, threadId, turnId, nested);
            OldestToMeet(c.waiters, i, n) && Delivered(c.waiters[i].id, n) in t.events && n !in t.queue
  {
    var op := DoArrive(name, threadId, turnId, nested);
    assert (ops + [op])[..|ops|] == ops;
    var c := Run(ops);
    var n := Notification(c.arrived, name, threadId, turnId, nested);
    assert Meets(AskedBy(w), n);
    assert Run(ops + [op]) == Arrive(c, name, threadId, turnId, nested);
    hide *;
    RunKeeps(ops);
    i := SomeoneMeets(c.waiters, w, n);
    MetIsDelivered(c, i, name, threadId, turnId, nested);
  }

  lemma NewIsNotQueued(c: Client, n: Notification)
    requires CodexClient.Ok(c) && n.serial == c.arrived
    ensures n !in c.queue && |c.queue| <= 64
  {
    hide NoneAwaited, NotificationsAccounted, WaitsAccounted, InOrder;
  }

  // ---- failures and timeouts ----

  /** A wait names a run when it gives a thread or a turn. */
  predicate OfARun(w: Waiter) {
    w.scope.threadId.Some? || w.scope.turnId.Some?
  }

  /**
   * A frame that is not JSON-RPC fails the protocol for good. It rejects exactly the waits of runs, and if there is
   * one, everything buffered is let go; waits that name no run stay registered.
   */
  lemma FailureRejectsTheRuns(c: Client)
    ensures var t := Fail(c);
            && t.failed && t.nextWaiter == c.nextWaiter && t.arrived == c.arrived
            && (forall w :: w in t.waiters <==> w in c.waiters && !OfARun(w))
            && (forall w | w in c.waiters && OfARun(w) :: WaiterRejected(w.id) in t.events)
            && ((exists w :: w in c.waiters && OfARun(w)) ==>
                  t.queue == [] && forall n :: n in c.queue ==> Dropped(n) in t.events)
            && ((forall w :: w in c.waiters ==> !OfARun(w)) ==> t == c.(failed := true))
  {
    var scoped := (w: Waiter) => Scoped(w.scope);
    var stale := Select(c.waiters, scoped);
    var t := Fail(c);
    hide Select, Keep, Rejects, Drops;
    if stale == [] {
      forall w | w in c.waiters ensures !OfARun(w) {
        assert w !in stale;
      }
    } else {
      assert stale[0] in stale;
      forall w | w in c.waiters && OfARun(w) ensures WaiterRejected(w.id) in t.events {
        assert w in stale;
        var k :| 0 <= k < |stale| && stale[k] == w;
        assert Rejects(stale)[k] == WaiterRejected(w.id);
      }
      forall n | n in c.queue ensures Dropped(n) in t.events {
        EachSelectedIsDropped(c.queue, n);
      }
    }
  }

  /** Some buffered notification has one of these names and carries the ids that were given. */
  predicate Waiting(queue: seq<Notification>, names: seq<string>, scope: Scope) {
    exists n :: n in queue && n.name in names && Carries(n, scope.threadId, scope.turnId)
  }

  /**
   * A wait that is begun takes at once a buffered notification that it asked for, if there is one, and otherwise is
   * registered, last in line.
   */
  lemma WaitIsDecided(c: Client, names: seq<string>, scope: Scope)
    requires Begun(c.failed, scope)
    ensures var t := WaitForAny(c, names, scope).0;
            if Waiting(c.queue, names, scope)
            then && t.waiters == c.waiters && |t.events| == |c.events| + 1 && t.events[..|c.events|] == c.events
                 && t.events[|c.events|].Delivered? && t.events[|c.events|].waiter == c.nextWaiter
                 && t.events[|c.events|].n in c.queue
                 && t.events[|c.events|].n.name in names
                 && Carries(t.events[|c.events|].n, scope.threadId, scope.turnId)
            else t == c.(nextWaiter := c.nextWaiter + 1,
                         waiters := c.waiters + [Waiter(c.nextWaiter, ["__any__"] + names, scope)])
  {
    hide Carries, InScope;
    forall n ensures InScope(scope, n) <==> Carries(n, scope.threadId, scope.turnId) {
      ScopeCarries(scope, n);
    }
    var i := FirstAwaited(c.queue, names, scope);
    hide FirstAwaited;
    assert i < |c.queue| ==> c.queue[i] in c.queue;
  }

  /** After a failure a wait that names a run is refused, and any other wait is begun as before. */
  lemma WaitsAfterAFailure(c: Client, names: seq<string>, name: string, scope: Scope)
    ensures WaitForAny(c, names, scope).1 <==> !c.failed || (scope.threadId.None? && scope.turnId.None?)
    ensures WaitFor(c, name, scope).1 <==> !c.failed || (scope.threadId.None? && scope.turnId.None?)
    ensures !WaitForAny(c, names, scope).1 ==> WaitForAny(c, names, scope).0 == c
    ensures !WaitFor(c, name, scope).1 ==> WaitFor(c, name, scope).0 == c
  {
    hide FirstAwaited;
  }

  /** A wait that times out takes only itself away. */
  lemma TimeOutTakesOnlyItself(c: Client, id: nat)
    ensures var t := TimeOut(c, id);
            && t.queue == c.queue && t.failed == c.failed && t.nextWaiter == c.nextWaiter && t.arrived == c.arrived
            && (forall w :: w in t.waiters <==> w in c.waiters && w.id != id)
            && ((exists w :: w in c.waiters && w.id == id) ==> WaiterRejected(id) in t.events)
            && ((forall w :: w in c.waiters ==> w.id != id) ==> t.events == c.events)
  {
    var gone := (w: Waiter) => w.id == id;
    var stale := Select(c.waiters, gone);
    hide Select, Keep, Rejects;
    if stale != [] {
      assert stale[0] in stale;
      assert Rejects(stale)[0] == WaiterRejected(id);
    } else if w :| w in c.waiters && w.id == id {
      assert w in stale;
    }
  }
}
