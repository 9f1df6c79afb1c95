/**
 * The client as the object it is: arrays of waiters and buffered notifications that are spliced,
 * shifted and filtered in place. Each method is proved to do what the specifications say, and what
 * they mean for waits and notifications is the matter of `CodexClient` and `CodexDelivery`, for
 * server requests that of `CodexWire` and `CodexRequests`.
 */
module CodexAppServerClients {
  import opened Options
  import opened CodexClient
  import Wire = CodexWire

  class CodexAppServerClient {
    var notificationQueue: seq<Notification>
    var notificationWaiters: seq<Waiter>
    var waiterSeq: nat
    var protocolError: bool
    var stopped: bool
    var serverRequestWaiters: seq<Wire.ToolWaiter>
    // how many notifications arrived, the promises settled, and the notifications let go
    var arrived: nat
    var events: seq<Event>
    // the tool-call promises settled with a request, and the answers written
    var offered: map<nat, Wire.Request>
    var written: seq<Wire.Reply>

    ghost function Model(): Client
      reads this
    {
      Client(notificationQueue, notificationWaiters, waiterSeq, protocolError, arrived, events)
    }

    constructor ()
      ensures Model() == Start() && !stopped && serverRequestWaiters == [] && offered == map[] && written == []
    {
      notificationQueue, notificationWaiters, waiterSeq, protocolError, stopped := [], [], 0, false, false;
      serverRequestWaiters, offered, written := [], map[], [];
      arrived, events := 0, [];
    }

    method HandleNotification(name: string, threadId: Option<string>, turnId: Option<string>, nested: Option<string>)
      modifies this`notificationQueue, this`notificationWaiters, this`arrived, this`events
      ensures Model() == Arrive(old(Model()), name, threadId, turnId, nested)
    {
      hide Keep, Select, Drops, FirstWaiter;
      var n := Notification(arrived, name, threadId, turnId, nested);
      arrived := arrived + 1;
      var waiterIndex := FirstWaiter(notificationWaiters, n);
      if waiterIndex < |notificationWaiters| {
        var waiter := notificationWaiters[waiterIndex];
        notificationWaiters := Without(notificationWaiters, waiterIndex);
        events := events + [Delivered(waiter.id, n)];
        if name == COMPLETED {
          PurgeScope(n);
        }
      } else if Supported(name) {
        BufferSupported(n);
      } else {
        events := events + [Dropped(n)];
      }
    }

    /** Appends, then evicts the oldest until the bound holds again. */
    method BufferSupported(n: Notification)
      modifies this`notificationQueue, this`events
      ensures Model() == Buffered(old(Model()), n)
    {
      hide Drops;
      notificationQueue := notificationQueue + [n];
      ghost var all := notificationQueue;
      ghost var over := 0;
      assert Drops(all[..0]) == [];
      while |notificationQueue| > LIMIT
        invariant over <= |all| && notificationQueue == all[over..] && (over == 0 || |all| - over >= LIMIT)
        invariant events == old(events) + Drops(all[..over])
      {
        DropsOneMore(all, over);
        events := events + [Dropped(notificationQueue[0])];
        notificationQueue := notificationQueue[1..];
        over := over + 1;
      }
    }

    method PurgeScope(n: Notification)
      modifies this`notificationQueue, this`events
      ensures Model() == if Scoped(ClosedBy(n)) then Purged(old(Model()), ClosedBy(n)) else old(Model())
    {
      hide Keep, Select, Drops;
      if n.threadId == None && n.turnId == None && n.nestedTurnId == None {
        return;
      }
      Purge(Scope(n.threadId, if n.turnId.Some? then n.turnId else n.nestedTurnId));
    }

    method Purge(scope: Scope)
      modifies this`notificationQueue, this`events
      ensures Model() == Purged(old(Model()), scope)
    {
      hide Keep, Select, Drops;
      var gone := (n: Notification) => InScope(scope, n);
      events := events + Drops(Select(notificationQueue, gone));
      notificationQueue := Keep(notificationQueue, gone);
    }

    /** The buffer is searched name by name before a waiter is registered. */
    method WaitForAnyNotification(names: seq<string>, scope: Scope) returns (accepted: bool)
      modifies this`notificationQueue, this`notificationWaiters, this`waiterSeq, this`events
      ensures (Model(), accepted) == WaitForAny(old(Model()), names, scope)
    {
      hide FirstQueued;
      if protocolError && Scoped(scope) {
        return false;
      }
      var ticket := waiterSeq;
      waiterSeq := waiterSeq + 1;
      assert names[0..] == names;
      for i := 0 to |names|
        invariant FirstAwaited(notificationQueue, names, scope) == FirstAwaited(notificationQueue, names[i..], scope)
        invariant notificationQueue == old(notificationQueue) && notificationWaiters == old(notificationWaiters)
            && events == old(events)
      {
        assert names[i..][0] == names[i] && names[i..][1..] == names[i + 1..];
        var queued := FirstQueued(notificationQueue, names[i], scope);
        if queued < |notificationQueue| {
          events := events + [Delivered(ticket, notificationQueue[queued])];
          notificationQueue := Without(notificationQueue, queued);
          return true;
        }
      }
      notificationWaiters := notificationWaiters + [Waiter(ticket, [ANY] + names, scope)];
      accepted := true;
    }

    method WaitForNotification(name: string, scope: Scope) returns (accepted: bool)
      modifies this`notificationQueue, this`notificationWaiters, this`waiterSeq, this`events
      ensures (Model(), accepted) == WaitFor(old(Model()), name, scope)
    {
      if protocolError && Scoped(scope) {
        return false;
      }
      var ticket := waiterSeq;
      waiterSeq := waiterSeq + 1;
      var queued := FirstQueued(notificationQueue, name, scope);
      assert FirstAwaited(notificationQueue, [name], scope) == queued by {
        assert [name][1..] == [];
      }
      if queued < |notificationQueue| {
        events := events + [Delivered(ticket, notificationQueue[queued])];
        notificationQueue := Without(notificationQueue, queued);
      } else {
        assert [] + [name] == [name];
        notificationWaiters := notificationWaiters + [Waiter(ticket, [name], scope)];
      }
      accepted := true;
    }

    method ExpireWaiter(id: nat)
      modifies this`notificationWaiters, this`events
      ensures Model() == TimeOut(old(Model()), id)
    {
      hide Keep, Select, Rejects;
      var gone := (w: Waiter) => w.id == id;
      events := events + Rejects(Select(notificationWaiters, gone));
      notificationWaiters := Keep(notificationWaiters, gone);
    }

    method FailProtocol()
      modifies this`notificationQueue, this`notificationWaiters, this`protocolError, this`events
      ensures Model() == Fail(old(Model()))
    {
      hide Keep, Select, Rejects, Drops;
      protocolError := true;
      var scoped := (w: Waiter) => Scoped(w.scope);
      var stale := Select(notificationWaiters, scoped);
      if stale != [] {
        notificationWaiters := Keep(notificationWaiters, scoped);
        events := events + Rejects(stale) + Drops(notificationQueue);
        notificationQueue := [];
      }
    }

    /** Releases one finished or cancelled run: its buffered notifications and its waiters of both sorts. */
    method DiscardScope(scope: Scope)
      modifies this`notificationQueue, this`notificationWaiters, this`serverRequestWaiters, this`events
      ensures Model() == Discard(old(Model()), scope)
      ensures serverRequestWaiters == if Scoped(scope)
          then Keep(old(serverRequestWaiters), (w: Wire.ToolWaiter) => Covers(scope, w)) else old(serverRequestWaiters)
    {
      hide Keep, Select, Rejects, Drops;
      if scope.threadId == None && scope.turnId == None {
        return;
      }
      Purge(scope);
      var gone := (w: Waiter) => Released(scope, w);
      events := events + Rejects(Select(notificationWaiters, gone));
      notificationWaiters := Keep(notificationWaiters, gone);
      serverRequestWaiters := Keep(serverRequestWaiters, (w: Wire.ToolWaiter) => Covers(scope, w));
    }

    method Answer(id: Wire.WireId, answer: Wire.Answer)
      modifies this`written
      ensures written == if stopped then old(written) else old(written) + [Wire.Reply(id, answer)]
    {
      if !stopped {
        written := written + [Wire.Reply(id, answer)];
      }
    }

    /** A request of the app-server: declined on the spot, or handed to the first waiter whose scope covers it. */
    method HandleServerRequest(r: Wire.Request, ghost s: Wire.Wires)
      requires s.waiters == serverRequestWaiters && s.offered == offered && s.replies == written && s.stopped == stopped
      modifies this`serverRequestWaiters, this`offered, this`written
      ensures var t := Wire.Receive(s, r);
              serverRequestWaiters == t.waiters && offered == t.offered && written == t.replies
    {
      hide Wire.FirstAwaiting;
      if r.kind != Wire.ToolCall {
        Answer(r.id, Wire.Decline);
        return;
      }
      var waiterIndex := Wire.FirstAwaiting(serverRequestWaiters, r);
      if waiterIndex < |serverRequestWaiters| {
        var waiter := serverRequestWaiters[waiterIndex];
        serverRequestWaiters := serverRequestWaiters[..waiterIndex] + serverRequestWaiters[waiterIndex + 1..];
        offered := offered[waiter.id := r];
      } else {
        Answer(r.id, Wire.Failure);
      }
    }
  }

  lemma DropsOneMore(queue: seq<Notification>, i: nat)
    requires i < |queue|
    ensures Drops(queue[..i + 1]) == Drops(queue[..i]) + [Dropped(queue[i])]
  {
    hide Drops;
  }

  predicate Covers(scope: Scope, w: Wire.ToolWaiter) {
    && (scope.threadId.Some? ==> w.scope.threadId == scope.threadId)
    && (scope.turnId.Some? ==> w.scope.turnId == scope.turnId)
  }
}
