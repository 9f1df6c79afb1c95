/**
 * The Codex app-server client's delivery of notifications: registered waiters, and a bounded buffer
 * for what arrives before its waiter does. The accounting over every run is here: nothing buffered is
 * awaited, and each notification is delivered once, let go once, or still there.
 */
module CodexClient {
  import opened Options

  /** A notification with its correlation ids; `serial` is its place in the order of arrival. */
  datatype Notification = Notification(
    serial: nat,
    name: string,
    threadId: Option<string>,
    turnId: Option<string>,
    nestedTurnId: Option<string>)

  datatype Scope = Scope(threadId: Option<string>, turnId: Option<string>)

  datatype Waiter = Waiter(id: nat, names: seq<string>, scope: Scope)

  /** How a wait ended, or that a notification was let go. */
  datatype Event =
    | Delivered(waiter: nat, n: Notification)
    | WaiterRejected(waiter: nat)
    | Dropped(n: Notification)

  datatype Client = Client(
    queue: seq<Notification>,
    waiters: seq<Waiter>,
    nextWaiter: nat,
    failed: bool,
    // tapes: how many notifications arrived, and everything that happened
    arrived: nat,
    events: seq<Event>)

  const DELTA := "item/agentMessage/delta"
  const USAGE := "thread/tokenUsage/updated"
  const COMPLETED := "turn/completed"
  const ITEM_COMPLETED := "item/completed"
  const ANY := "__any__"
  const LIMIT: nat := 64

  predicate Supported(name: string) {
    name == DELTA || name == USAGE || name == COMPLETED
  }

  predicate Scoped(scope: Scope) {
    scope.threadId.Some? || scope.turnId.Some?
  }

  /** The correlation rule: every id the scope names must be the notification's, the turn id in either place. */
  predicate InScope(scope: Scope, n: Notification) {
    && (scope.threadId.Some? ==> n.threadId == scope.threadId)
    && (scope.turnId.Some? ==> n.turnId == scope.turnId || n.nestedTurnId == scope.turnId)
  }

  predicate Matches(w: Waiter, n: Notification) {
    n.name in w.names && InScope(w.scope, n)
  }

  function FirstWaiter(waiters: seq<Waiter>, n: Notification): (i: nat)
    ensures i <= |waiters|
    ensures i < |waiters| ==> Matches(waiters[i], n)
    ensures forall j :: 0 <= j < i ==> !Matches(waiters[j], n)
  {
    if waiters == [] then 0 else if Matches(waiters[0], n) then 0 else 1 + FirstWaiter(waiters[1..], n)
  }

  function FirstQueued(queue: seq<Notification>, name: string, scope: Scope): (i: nat)
    ensures i <= |queue|
    ensures i < |queue| ==> queue[i].name == name && InScope(scope, queue[i])
    ensures forall j :: 0 <= j < i ==> !(queue[j].name == name && InScope(scope, queue[j]))
  {
    if queue == [] then 0
    else if queue[0].name == name && InScope(scope, queue[0]) then 0
    else 1 + FirstQueued(queue[1..], name, scope)
  }

  /** The buffered notification a new wait takes: names in the order asked for, and within one name the oldest. */
  function FirstAwaited(queue: seq<Notification>, names: seq<string>, scope: Scope): (i: nat)
    ensures i <= |queue|
    ensures i < |queue| ==> queue[i].name in names && InScope(scope, queue[i])
    ensures i < |queue| ==> forall j :: 0 <= j < i ==> !(queue[j].name == queue[i].name && InScope(scope, queue[j]))
    ensures i == |queue| ==> forall j :: 0 <= j < |queue| ==> !(queue[j].name in names && InScope(scope, queue[j]))
    decreases |names|
  {
    if names == [] then |queue|
    else
      var first := FirstQueued(queue, names[0], scope);
      if first < |queue| then first else FirstAwaited(queue, names[1..], scope)
  }

  function Without<T>(s: seq<T>, i: nat): seq<T>
    requires i < |s|
  {
    s[..i] + s[i + 1..]
  }

  /** Those that do not satisfy `p`, and those that do. */
  function Keep<T(!new)>(s: seq<T>, p: T -> bool): (r: seq<T>)
    ensures forall x :: x in r <==> x in s && !p(x)
    ensures |r| <= |s|
  {
    if s == [] then [] else if p(s[0]) then Keep(s[1..], p) else [s[0]] + Keep(s[1..], p)
  }

  function Select<T(!new)>(s: seq<T>, p: T -> bool): (r: seq<T>)
    ensures forall x :: x in r <==> x in s && p(x)
  {
    if s == [] then [] else if p(s[0]) then [s[0]] + Select(s[1..], p) else Select(s[1..], p)
  }

  function Drops(queue: seq<Notification>): (r: seq<Event>)
    ensures |r| == |queue| && forall i :: 0 <= i < |queue| ==> r[i] == Dropped(queue[i])
  {
    if queue == [] then [] else [Dropped(queue[0])] + Drops(queue[1..])
  }

  function Rejects(waiters: seq<Waiter>): (r: seq<Event>)
    ensures |r| == |waiters| && forall i :: 0 <= i < |waiters| ==> r[i] == WaiterRejected(waiters[i].id)
  {
    if waiters == [] then [] else [WaiterRejected(waiters[0].id)] + Rejects(waiters[1..])
  }

  function Purged(c: Client, scope: Scope): Client {
    var gone := (n: Notification) => InScope(scope, n);
    c.(queue := Keep(c.queue, gone), events := c.events + Drops(Select(c.queue, gone)))
  }

  /** The scope a terminal notification closes; none when it carries no ids. */
  function ClosedBy(n: Notification): Scope {
    Scope(n.threadId, if n.turnId.Some? then n.turnId else n.nestedTurnId)
  }

  function Buffered(c: Client, n: Notification): Client {
    var queue := c.queue + [n];
    var over := if |queue| > LIMIT then |queue| - LIMIT else 0;
    c.(queue := queue[over..], events := c.events + Drops(queue[..over]))
  }

  /** A notification arrives. */
  function Arrive(c: Client, name: string, threadId: Option<string>, turnId: Option<string>,
      nested: Option<string>): Client {
    var n := Notification(c.arrived, name, threadId, turnId, nested);
    var c1 := c.(arrived := c.arrived + 1);
    var i := FirstWaiter(c.waiters, n);
    if i < |c.waiters| then
      var c2 := c1.(waiters := Without(c.waiters, i), events := c.events + [Delivered(c.waiters[i].id, n)]);
      if name == COMPLETED && Scoped(ClosedBy(n)) then Purged(c2, ClosedBy(n)) else c2
    else if Supported(name) then Buffered(c1, n)
    else c1.(events := c.events + [Dropped(n)])
  }

  /** A wait for any of `names`: refused after a protocol failure if scoped, served from the buffer, or registered. */
  function WaitAny(c: Client, names: seq<string>, extra: seq<string>, scope: Scope): (Client, bool) {
    if c.failed && Scoped(scope) then (c, false)
    else
      var i := FirstAwaited(c.queue, names, scope);
      var c1 := c.(nextWaiter := c.nextWaiter + 1);
      if i < |c.queue| then
        (c1.(queue := Without(c.queue, i), events := c.events + [Delivered(c.nextWaiter, c.queue[i])]), true)
      else (c1.(waiters := c.waiters + [Waiter(c.nextWaiter, extra + names, scope)]), true)
  }

  /** `waitForAnyNotification`: its waiter also carries a marker name. */
  function WaitForAny(c: Client, names: seq<string>, scope: Scope): (Client, bool) {
    WaitAny(c, names, [ANY], scope)
  }

  function WaitFor(c: Client, name: string, scope: Scope): (Client, bool) {
    WaitAny(c, [name], [], scope)
  }

  function TimeOut(c: Client, id: nat): Client {
    var gone := (w: Waiter) => w.id == id;
    c.(waiters := Keep(c.waiters, gone), events := c.events + Rejects(Select(c.waiters, gone)))
  }

  /** A frame that is not JSON-RPC: the scoped waiters fail, and with them everything buffered. */
  function Fail(c: Client): Client {
    var scoped := (w: Waiter) => Scoped(w.scope);
    var stale := Select(c.waiters, scoped);
    var c1 := c.(failed := true);
    if stale == [] then c1
    else c1.(waiters := Keep(c.waiters, scoped), queue := [], events := c.events + Rejects(stale) + Drops(c.queue))
  }

  /** The waiter belongs to the scope: every id the scope names is the waiter's own. */
  predicate Released(scope: Scope, w: Waiter) {
    && Scoped(w.scope)
    && (scope.threadId.Some? ==> w.scope.threadId == scope.threadId)
    && (scope.turnId.Some? ==> w.scope.turnId == scope.turnId)
  }

  function Discard(c: Client, scope: Scope): Client {
    if !Scoped(scope) then c
    else
      var c1 := Purged(c, scope);
      var gone := (w: Waiter) => Released(scope, w);
      c1.(waiters := Keep(c1.waiters, gone), events := c1.events + Rejects(Select(c1.waiters, gone)))
  }

  // ---- runs ----

  datatype Op =
    | DoArrive(name: string, threadId: Option<string>, turnId: Option<string>, nested: Option<string>)
    | DoWaitForAny(names: seq<string>, scope: Scope)
    | DoWaitFor(name: string, scope: Scope)
    | DoTimeOut(id: nat)
    | DoFail
    | DoDiscard(scope: Scope)

  function Apply(c: Client, op: Op): Client {
    match op
    case DoArrive(name, threadId, turnId, nested) => Arrive(c, name, threadId, turnId, nested)
    case DoWaitForAny(names, scope) => WaitForAny(c, names, scope).0
    case DoWaitFor(name, scope) => WaitFor(c, name, scope).0
    case DoTimeOut(id) => TimeOut(c, id)
    case DoFail => Fail(c)
    case DoDiscard(scope) => Discard(c, scope)
  }

  function Start(): Client {
    Client([], [], 0, false, 0, [])
  }

  function Run(ops: seq<Op>): Client {
    if ops == [] then Start() else Apply(Run(ops[..|ops| - 1]), ops[|ops| - 1])
  }

  // ---- what every state keeps ----

  /** Nothing buffered is awaited: a notification goes to a waiter or to the buffer, never past one to the other. */
  ghost predicate NoneAwaited(queue: seq<Notification>, waiters: seq<Waiter>) {
    forall n, w | n in queue && w in waiters :: !Matches(w, n)
  }

  /** In the order of arrival. */
  ghost predicate Ascending(queue: seq<Notification>) {
    forall i, j :: 0 <= i < j < |queue| ==> queue[i].serial < queue[j].serial
  }

  ghost predicate Arrivals(queue: seq<Notification>, arrived: nat) {
    && |queue| <= LIMIT
    && (forall n :: n in queue ==> Supported(n.name) && n.serial < arrived)
    && Ascending(queue)
  }

  function Upto(n: nat): (m: multiset<nat>)
    ensures forall k: nat :: m[k] == if k < n then 1 else 0
  {
    if n == 0 then multiset{} else Upto(n - 1) + multiset{n - 1}
  }

  function Serials(queue: seq<Notification>): multiset<nat> {
    if queue == [] then multiset{} else multiset{queue[0].serial} + Serials(queue[1..])
  }

  function SerialsOf(events: seq<Event>): multiset<nat> {
    if events == [] then multiset{}
    else (if events[0].WaiterRejected? then multiset{} else multiset{events[0].n.serial}) + SerialsOf(events[1..])
  }

  function Ids(waiters: seq<Waiter>): multiset<nat> {
    if waiters == [] then multiset{} else multiset{waiters[0].id} + Ids(waiters[1..])
  }

  function IdsOf(events: seq<Event>): multiset<nat> {
    if events == [] then multiset{}
    else (if events[0].Dropped? then multiset{} else multiset{events[0].waiter}) + IdsOf(events[1..])
  }

  /** Every notification that arrived is buffered, was delivered, or was let go: exactly one of these, exactly once. */
  ghost predicate NotificationsAccounted(queue: seq<Notification>, events: seq<Event>, arrived: nat) {
    Serials(queue) + SerialsOf(events) == Upto(arrived)
  }

  /** Every wait that was begun is still registered, was served, or was rejected: exactly one of these, exactly once. */
  ghost predicate WaitsAccounted(waiters: seq<Waiter>, events: seq<Event>, nextWaiter: nat) {
    Ids(waiters) + IdsOf(events) == Upto(nextWaiter)
  }

  /** The same kind of notification of the same run. */
  predicate Alike(a: Notification, b: Notification) {
    a.name == b.name && a.threadId == b.threadId && a.turnId == b.turnId && a.nestedTurnId == b.nestedTurnId
  }

  /** Notifications of one kind and run are delivered in the order they arrived, and before any that still wait. */
  ghost predicate InOrder(queue: seq<Notification>, events: seq<Event>) {
    && (forall e, n | e in events && e.Delivered? && n in queue && Alike(e.n, n) :: e.n.serial < n.serial)
    && (forall i, j | 0 <= i < j < |events| && events[i].Delivered? && events[j].Delivered?
        && Alike(events[i].n, events[j].n) ::
          events[i].n.serial < events[j].n.serial)
  }

  ghost predicate Ok(c: Client) {
    && NoneAwaited(c.queue, c.waiters) && Arrivals(c.queue, c.arrived)
    && NotificationsAccounted(c.queue, c.events, c.arrived) && WaitsAccounted(c.waiters, c.events, c.nextWaiter)
    && InOrder(c.queue, c.events)
  }

  // ---- the parts ----

  lemma {:induction false} SerialsOfAppend(a: seq<Event>, b: seq<Event>)
    ensures SerialsOf(a + b) == SerialsOf(a) + SerialsOf(b) && IdsOf(a + b) == IdsOf(a) + IdsOf(b)
  {
    if a == [] {
      assert a + b == b;
    } else {
      assert (a + b)[0] == a[0] && (a + b)[1..] == a[1..] + b;
      SerialsOfAppend(a[1..], b);
    }
  }

  lemma {:induction false} SerialsAppend(a: seq<Notification>, b: seq<Notification>)
    ensures Serials(a + b) == Serials(a) + Serials(b)
  {
    if a == [] {
      assert a + b == b;
    } else {
      assert (a + b)[0] == a[0] && (a + b)[1..] == a[1..] + b;
      SerialsAppend(a[1..], b);
    }
  }

  lemma {:induction false} IdsAppend(a: seq<Waiter>, b: seq<Waiter>)
    ensures Ids(a + b) == Ids(a) + Ids(b)
  {
    if a == [] {
      assert a + b == b;
    } else {
      assert (a + b)[0] == a[0] && (a + b)[1..] == a[1..] + b;
      IdsAppend(a[1..], b);
    }
  }

  lemma {:induction false} DropsAccount(queue: seq<Notification>)
    ensures SerialsOf(Drops(queue)) == Serials(queue) && IdsOf(Drops(queue)) == multiset{}
  {
    if queue != [] {
      DropsAccount(queue[1..]);
    }
  }

  lemma {:induction false} RejectsAccount(waiters: seq<Waiter>)
    ensures IdsOf(Rejects(waiters)) == Ids(waiters) && SerialsOf(Rejects(waiters)) == multiset{}
  {
    if waiters != [] {
      RejectsAccount(waiters[1..]);
    }
  }

  lemma SerialsCons(n: Notification, rest: seq<Notification>)
    ensures Serials([n] + rest) == multiset{n.serial} + Serials(rest)
  {
    assert ([n] + rest)[1..] == rest;
  }

  lemma SerialsOne(n: Notification)
    ensures Serials([n]) == multiset{n.serial}
  {
    assert [n][1..] == [];
  }

  lemma IdsCons(w: Waiter, rest: seq<Waiter>)
    ensures Ids([w] + rest) == multiset{w.id} + Ids(rest)
  {
    assert ([w] + rest)[1..] == rest;
  }

  lemma {:induction false} QueueParts(queue: seq<Notification>, p: Notification -> bool)
    ensures Serials(Keep(queue, p)) + Serials(Select(queue, p)) == Serials(queue)
  {
    if queue != [] {
      QueueParts(queue[1..], p);
      var kept, selected := Keep(queue[1..], p), Select(queue[1..], p);
      SerialsCons(queue[0], kept);
      SerialsCons(queue[0], selected);
      assert Serials(queue) == multiset{queue[0].serial} + Serials(queue[1..]);
      hide Serials;
      assert Keep(queue, p) == if p(queue[0]) then kept else [queue[0]] + kept;
      assert Select(queue, p) == if p(queue[0]) then [queue[0]] + selected else selected;
    }
  }

  lemma {:induction false} WaiterParts(waiters: seq<Waiter>, p: Waiter -> bool)
    ensures Ids(Keep(waiters, p)) + Ids(Select(waiters, p)) == Ids(waiters)
  {
    if waiters != [] {
      WaiterParts(waiters[1..], p);
      var kept, selected := Keep(waiters[1..], p), Select(waiters[1..], p);
      IdsCons(waiters[0], kept);
      IdsCons(waiters[0], selected);
      assert Ids(waiters) == multiset{waiters[0].id} + Ids(waiters[1..]);
      hide Ids;
      assert Keep(waiters, p) == if p(waiters[0]) then kept else [waiters[0]] + kept;
      assert Select(waiters, p) == if p(waiters[0]) then [waiters[0]] + selected else selected;
    }
  }

  lemma {:induction false} QueueWithout(queue: seq<Notification>, i: nat)
    requires i < |queue|
    ensures Serials(queue) == Serials(Without(queue, i)) + multiset{queue[i].serial}
  {
    hide Serials;
    SerialsCons(queue[0], queue[1..]);
    assert queue == [queue[0]] + queue[1..];
    if i == 0 {
      assert Without(queue, 0) == queue[1..];
    } else {
      QueueWithout(queue[1..], i - 1);
      SerialsCons(queue[0], Without(queue[1..], i - 1));
      assert Without(queue, i) == [queue[0]] + Without(queue[1..], i - 1);
    }
  }

  lemma {:induction false} WaitersWithout(waiters: seq<Waiter>, i: nat)
    requires i < |waiters|
    ensures Ids(waiters) == Ids(Without(waiters, i)) + multiset{waiters[i].id}
  {
    hide Ids;
    IdsCons(waiters[0], waiters[1..]);
    assert waiters == [waiters[0]] + waiters[1..];
    if i == 0 {
      assert Without(waiters, 0) == waiters[1..];
    } else {
      WaitersWithout(waiters[1..], i - 1);
      IdsCons(waiters[0], Without(waiters[1..], i - 1));
      assert Without(waiters, i) == [waiters[0]] + Without(waiters[1..], i - 1);
    }
  }

  lemma {:induction false} SerialKnown(events: seq<Event>, e: Event)
    requires e in events
    ensures !e.WaiterRejected? ==> e.n.serial in SerialsOf(events)
    ensures !e.Dropped? ==> e.waiter in IdsOf(events)
  {
    if events[0] != e {
      SerialKnown(events[1..], e);
    }
  }

  /** A later queue made of earlier entries in the same order. */
  ghost predicate Thinner(a: seq<Notification>, b: seq<Notification>) {
    && |b| <= |a| && (forall n :: n in b ==> n in a) && (Ascending(a) ==> Ascending(b))
  }

  lemma AscendingTail(queue: seq<Notification>)
    requires queue != [] && Ascending(queue)
    ensures Ascending(queue[1..]) && forall n :: n in queue[1..] ==> queue[0].serial < n.serial
  {
  }

  lemma {:induction false} KeptAscending(queue: seq<Notification>, p: Notification -> bool)
    requires Ascending(queue)
    ensures Ascending(Keep(queue, p))
  {
    if queue != [] {
      AscendingTail(queue);
      KeptAscending(queue[1..], p);
      var kept := Keep(queue[1..], p);
      assert Keep(queue, p) == if p(queue[0]) then kept else [queue[0]] + kept;
      hide Keep;
    }
  }

  lemma KeepIsThinner(queue: seq<Notification>, p: Notification -> bool)
    ensures Thinner(queue, Keep(queue, p))
  {
    hide Keep;
    if Ascending(queue) {
      KeptAscending(queue, p);
    }
  }

  /** Losing buffered notifications, without delivering any, keeps order and expectations. */
  lemma ThinnerKeeps(c: Client, queue: seq<Notification>, more: seq<Event>)
    requires NoneAwaited(c.queue, c.waiters) && Arrivals(c.queue, c.arrived) && InOrder(c.queue, c.events)
    requires Thinner(c.queue, queue) && forall e :: e in more ==> !e.Delivered?
    ensures NoneAwaited(queue, c.waiters) && Arrivals(queue, c.arrived) && InOrder(queue, c.events + more)
  {
    var events := c.events + more;
    assert forall e :: e in events && e.Delivered? ==> e in c.events;
    assert forall i :: 0 <= i < |events| && events[i].Delivered? ==> i < |c.events| && events[i] == c.events[i];
  }

  lemma PurgedAccounts(queue: seq<Notification>, events: seq<Event>, arrived: nat, p: Notification -> bool)
    requires NotificationsAccounted(queue, events, arrived)
    ensures NotificationsAccounted(Keep(queue, p), events + Drops(Select(queue, p)), arrived)
    ensures IdsOf(events + Drops(Select(queue, p))) == IdsOf(events)
  {
    hide Upto, Serials, SerialsOf, IdsOf;
    QueueParts(queue, p);
    DropsAccount(Select(queue, p));
    SerialsOfAppend(events, Drops(Select(queue, p)));
    hide Keep, Select;
  }

  lemma PurgedKeeps(c: Client, scope: Scope)
    requires Ok(c)
    ensures Ok(Purged(c, scope))
  {
    hide NoneAwaited, Arrivals, InOrder, NotificationsAccounted, Upto, Ids, IdsOf, Thinner, Keep, Select;
    var gone := (n: Notification) => InScope(scope, n);
    KeepIsThinner(c.queue, gone);
    ThinnerKeeps(c, Keep(c.queue, gone), Drops(Select(c.queue, gone)));
    PurgedAccounts(c.queue, c.events, c.arrived, gone);
  }

  // ---- each operation ----

  lemma WaitsRejected(waiters: seq<Waiter>, events: seq<Event>, nextWaiter: nat, p: Waiter -> bool)
    requires WaitsAccounted(waiters, events, nextWaiter)
    ensures WaitsAccounted(Keep(waiters, p), events + Rejects(Select(waiters, p)), nextWaiter)
    ensures SerialsOf(events + Rejects(Select(waiters, p))) == SerialsOf(events)
  {
    hide Upto, Ids, SerialsOf, IdsOf;
    WaiterParts(waiters, p);
    RejectsAccount(Select(waiters, p));
    SerialsOfAppend(events, Rejects(Select(waiters, p)));
    hide Keep, Select;
  }

  lemma RejectingKeeps(c: Client, p: Waiter -> bool)
    requires Ok(c)
    ensures Ok(c.(waiters := Keep(c.waiters, p), events := c.events + Rejects(Select(c.waiters, p))))
  {
    hide NoneAwaited, InOrder, WaitsAccounted, Upto, Serials, SerialsOf;
    var kept := Keep(c.waiters, p);
    FewerAwaited(c.queue, c.queue, c.waiters, kept);
    StillInOrder(c.queue, c.queue, c.events, Rejects(Select(c.waiters, p)));
    WaitsRejected(c.waiters, c.events, c.nextWaiter, p);
  }

  lemma OneMore(events: seq<Event>, e: Event)
    ensures SerialsOf(events + [e]) == SerialsOf(events)
        + (if e.WaiterRejected? then multiset{} else multiset{e.n.serial})
    ensures IdsOf(events + [e]) == IdsOf(events) + (if e.Dropped? then multiset{} else multiset{e.waiter})
  {
    SerialsOfAppend(events, [e]);
    assert [e][1..] == [];
    assert SerialsOf([e]) == if e.WaiterRejected? then multiset{} else multiset{e.n.serial};
    assert IdsOf([e]) == if e.Dropped? then multiset{} else multiset{e.waiter};
  }

  /** What has been handled arrived before now. */
  lemma HandledBefore(queue: seq<Notification>, events: seq<Event>, arrived: nat)
    requires NotificationsAccounted(queue, events, arrived)
    ensures forall e :: e in events && !e.WaiterRejected? ==> e.n.serial < arrived
  {
    forall e | e in events && !e.WaiterRejected? ensures e.n.serial < arrived {
      SerialKnown(events, e);
      assert e.n.serial in Upto(arrived);
    }
  }

  lemma DeliveredLast(queue: seq<Notification>, events: seq<Event>, e: Event)
    requires InOrder(queue, events) && e.Delivered?
    requires forall x :: x in events && x.Delivered? && Alike(x.n, e.n) ==> x.n.serial < e.n.serial
    requires forall n :: n in queue && Alike(e.n, n) ==> e.n.serial < n.serial
    ensures InOrder(queue, events + [e])
  {
    hide Alike;
  }

  lemma FewerAwaited(a: seq<Notification>, b: seq<Notification>, v: seq<Waiter>, w: seq<Waiter>)
    requires NoneAwaited(a, v) && (forall n :: n in b ==> n in a) && (forall x :: x in w ==> x in v)
    ensures NoneAwaited(b, w)
  {
    hide Matches;
  }

  lemma AccountHandled(queue: seq<Notification>, events: seq<Event>, arrived: nat, e: Event)
    requires NotificationsAccounted(queue, events, arrived) && !e.WaiterRejected? && e.n.serial == arrived
    ensures NotificationsAccounted(queue, events + [e], arrived + 1)
  {
    hide Upto, Serials, SerialsOf, IdsOf;
    OneMore(events, e);
    UptoNext(arrived);
  }

  lemma AccountServed(queue: seq<Notification>, i: nat, events: seq<Event>, arrived: nat, e: Event)
    requires NotificationsAccounted(queue, events, arrived) && i < |queue| && e.Delivered? && e.n == queue[i]
    ensures NotificationsAccounted(Without(queue, i), events + [e], arrived)
  {
    hide Upto, Serials, SerialsOf, IdsOf;
    OneMore(events, e);
    QueueWithout(queue, i);
    hide Without;
  }

  lemma WaitEnds(waiters: seq<Waiter>, i: nat, events: seq<Event>, nextWaiter: nat, e: Event)
    requires WaitsAccounted(waiters, events, nextWaiter) && i < |waiters| && e.Delivered? && e.waiter == waiters[i].id
    ensures WaitsAccounted(Without(waiters, i), events + [e], nextWaiter)
  {
    hide Upto, Ids, SerialsOf, IdsOf;
    OneMore(events, e);
    WaitersWithout(waiters, i);
    hide Without;
  }

  lemma WaitServedAtOnce(waiters: seq<Waiter>, events: seq<Event>, nextWaiter: nat, e: Event)
    requires WaitsAccounted(waiters, events, nextWaiter) && e.Delivered? && e.waiter == nextWaiter
    ensures WaitsAccounted(waiters, events + [e], nextWaiter + 1)
  {
    hide Upto, Ids, SerialsOf, IdsOf;
    OneMore(events, e);
    UptoNext(nextWaiter);
  }

  lemma WaitBegins(waiters: seq<Waiter>, events: seq<Event>, nextWaiter: nat, w: Waiter)
    requires WaitsAccounted(waiters, events, nextWaiter) && w.id == nextWaiter
    ensures WaitsAccounted(waiters + [w], events, nextWaiter + 1)
  {
    IdsAppend(waiters, [w]);
    assert Ids([w]) == multiset{w.id} by { assert [w][1..] == []; }
    hide Upto, Ids, SerialsOf, IdsOf;
    UptoNext(nextWaiter);
  }

  lemma WaitsUntouched(waiters: seq<Waiter>, events: seq<Event>, nextWaiter: nat, dropped: seq<Notification>)
    requires WaitsAccounted(waiters, events, nextWaiter)
    ensures WaitsAccounted(waiters, events + Drops(dropped), nextWaiter)
  {
    hide Upto, Ids, SerialsOf, IdsOf;
    SerialsOfAppend(events, Drops(dropped));
    DropsAccount(dropped);
  }

  lemma DirectOrder(c: Client, n: Notification)
    requires Ok(c) && n.serial == c.arrived && FirstWaiter(c.waiters, n) < |c.waiters|
    ensures InOrder(c.queue, c.events + [Delivered(c.waiters[FirstWaiter(c.waiters, n)].id, n)])
  {
    var w := c.waiters[FirstWaiter(c.waiters, n)];
    assert w in c.waiters;
    assert forall q :: q in c.queue && Alike(n, q) ==> Matches(w, q);
    HandledBefore(c.queue, c.events, c.arrived);
    DeliveredLast(c.queue, c.events, Delivered(w.id, n));
  }

  /** A notification that arrives while it is awaited: nothing like it is buffered, so it is next. */
  lemma DirectDelivery(c: Client, n: Notification)
    requires Ok(c) && n.serial == c.arrived && FirstWaiter(c.waiters, n) < |c.waiters|
    ensures var i := FirstWaiter(c.waiters, n);
            Ok(c.(arrived := c.arrived + 1, waiters := Without(c.waiters, i),
                events := c.events + [Delivered(c.waiters[i].id, n)]))
  {
    hide NoneAwaited, InOrder, NotificationsAccounted, WaitsAccounted;
    var i := FirstWaiter(c.waiters, n);
    DirectOrder(c, n);
    AccountHandled(c.queue, c.events, c.arrived, Delivered(c.waiters[i].id, n));
    WaitEnds(c.waiters, i, c.events, c.nextWaiter, Delivered(c.waiters[i].id, n));
    FewerAwaited(c.queue, c.queue, c.waiters, Without(c.waiters, i));
  }

  lemma UptoNext(n: nat)
    ensures Upto(n + 1) == Upto(n) + multiset{n}
  {
  }

  lemma UnawaitedKeeps(c: Client, n: Notification)
    requires Ok(c) && n.serial == c.arrived
    ensures Ok(c.(arrived := c.arrived + 1, events := c.events + [Dropped(n)]))
  {
    hide NoneAwaited, InOrder, NotificationsAccounted, WaitsAccounted;
    StillInOrder(c.queue, c.queue, c.events, [Dropped(n)]);
    AccountHandled(c.queue, c.events, c.arrived, Dropped(n));
    WaitsUntouched(c.waiters, c.events, c.nextWaiter, [n]);
    assert Drops([n]) == [Dropped(n)];
  }

  lemma QueuedOrder(c: Client, n: Notification)
    requires Arrivals(c.queue, c.arrived) && InOrder(c.queue, c.events)
        && NotificationsAccounted(c.queue, c.events, c.arrived)
    requires n.serial == c.arrived && Supported(n.name)
    ensures InOrder(c.queue + [n], c.events)
    ensures forall m :: m in c.queue + [n] ==> Supported(m.name) && m.serial < c.arrived + 1
    ensures Ascending(c.queue + [n])
  {
    HandledBefore(c.queue, c.events, c.arrived);
    hide Alike;
  }

  lemma Regrouped(gone: multiset<nat>, kept: multiset<nat>, before: multiset<nat>, queue: multiset<nat>,
      one: multiset<nat>)
    requires gone + kept == queue + one
    ensures kept + (before + gone) == (queue + before) + one
  {
    forall k: nat ensures (kept + (before + gone))[k] == ((queue + before) + one)[k] {
      assert (gone + kept)[k] == (queue + one)[k];
    }
  }

  lemma BufferedAccounts(queue: seq<Notification>, events: seq<Event>, arrived: nat, n: Notification, over: nat)
    requires NotificationsAccounted(queue, events, arrived) && n.serial == arrived && over <= |queue| + 1
    ensures NotificationsAccounted((queue + [n])[over..], events + Drops((queue + [n])[..over]), arrived + 1)
  {
    hide Serials, SerialsOf, IdsOf, Upto;
    var all := queue + [n];
    var kept, gone := all[over..], all[..over];
    assert all == gone + kept;
    SerialsAppend(queue, [n]);
    SerialsOne(n);
    SerialsAppend(gone, kept);
    SerialsOfAppend(events, Drops(gone));
    DropsAccount(gone);
    UptoNext(arrived);
    assert Serials(all) == Serials(queue) + multiset{n.serial};
    assert Serials(all) == Serials(gone + kept);
    Regrouped(Serials(gone), Serials(kept), SerialsOf(events), Serials(queue), multiset{arrived});
  }

  lemma StillUnawaited(queue: seq<Notification>, waiters: seq<Waiter>, n: Notification)
    requires NoneAwaited(queue, waiters) && FirstWaiter(waiters, n) == |waiters|
    ensures NoneAwaited(queue + [n], waiters)
  {
    hide Matches;
  }

  lemma BufferedKeeps(c: Client, n: Notification)
    requires Ok(c) && n.serial == c.arrived && Supported(n.name) && FirstWaiter(c.waiters, n) == |c.waiters|
    ensures Ok(Buffered(c.(arrived := c.arrived + 1), n))
  {
    hide NoneAwaited, InOrder, NotificationsAccounted, WaitsAccounted;
    var all := c.queue + [n];
    var over: nat := if |all| > LIMIT then |all| - LIMIT else 0;
    StillUnawaited(c.queue, c.waiters, n);
    QueuedOrder(c, n);
    BufferedAccounts(c.queue, c.events, c.arrived, n, over);
    WaitsUntouched(c.waiters, c.events, c.nextWaiter, all[..over]);
    FewerAwaited(all, all[over..], c.waiters, c.waiters);
    StillInOrder(all, all[over..], c.events, Drops(all[..over]));
  }

  lemma StillInOrder(a: seq<Notification>, b: seq<Notification>, events: seq<Event>, more: seq<Event>)
    requires InOrder(a, events) && (forall n :: n in b ==> n in a) && forall e :: e in more ==> !e.Delivered?
    ensures InOrder(b, events + more)
  {
    var all := events + more;
    assert forall e :: e in all && e.Delivered? ==> e in events;
    assert forall i :: 0 <= i < |all| && all[i].Delivered? ==> i < |events| && all[i] == events[i];
    hide Alike;
  }

  lemma ArriveKeeps(c: Client, name: string, threadId: Option<string>, turnId: Option<string>, nested: Option<string>)
    requires Ok(c)
    ensures Ok(Arrive(c, name, threadId, turnId, nested))
  {
    hide Ok, Purged, Buffered;
    var n := Notification(c.arrived, name, threadId, turnId, nested);
    var i := FirstWaiter(c.waiters, n);
    if i < |c.waiters| {
      DirectDelivery(c, n);
      var c2 := c.(arrived := c.arrived + 1, waiters := Without(c.waiters, i),
          events := c.events + [Delivered(c.waiters[i].id, n)]);
      PurgedKeeps(c2, ClosedBy(n));
    } else if Supported(name) {
      BufferedKeeps(c, n);
    } else {
      UnawaitedKeeps(c, n);
    }
  }

  lemma ServedIsOldest(queue: seq<Notification>, arrived: nat, names: seq<string>, scope: Scope)
    requires Arrivals(queue, arrived) && FirstAwaited(queue, names, scope) < |queue|
    ensures var i := FirstAwaited(queue, names, scope);
            forall q :: q in Without(queue, i) && Alike(queue[i], q) ==> queue[i].serial < q.serial
  {
    var i := FirstAwaited(queue, names, scope);
    forall q | q in Without(queue, i) && Alike(queue[i], q) ensures queue[i].serial < q.serial {
      var k :| 0 <= k < |queue| && queue[k] == q && k != i;
    }
  }

  lemma ServedOrder(c: Client, names: seq<string>, scope: Scope)
    requires Ok(c) && FirstAwaited(c.queue, names, scope) < |c.queue|
    ensures var i := FirstAwaited(c.queue, names, scope);
            InOrder(Without(c.queue, i), c.events + [Delivered(c.nextWaiter, c.queue[i])])
  {
    hide NoneAwaited, NotificationsAccounted, WaitsAccounted, Arrivals, Alike, FirstAwaited;
    var i := FirstAwaited(c.queue, names, scope);
    ServedIsOldest(c.queue, c.arrived, names, scope);
    StillInOrder(c.queue, Without(c.queue, i), c.events, []);
    assert c.events + [] == c.events;
    assert c.queue[i] in c.queue;
    DeliveredLast(Without(c.queue, i), c.events, Delivered(c.nextWaiter, c.queue[i]));
  }

  /** Taking the buffered notification a wait is served with: whatever is like it and still buffered arrived later. */
  lemma ServedKeeps(c: Client, names: seq<string>, scope: Scope)
    requires Ok(c) && FirstAwaited(c.queue, names, scope) < |c.queue|
    ensures var i := FirstAwaited(c.queue, names, scope);
            Ok(c.(queue := Without(c.queue, i), nextWaiter := c.nextWaiter + 1,
                  events := c.events + [Delivered(c.nextWaiter, c.queue[i])]))
  {
    hide NoneAwaited, InOrder, NotificationsAccounted, WaitsAccounted, Arrivals;
    var i := FirstAwaited(c.queue, names, scope);
    ServedOrder(c, names, scope);
    FewerAwaited(c.queue, Without(c.queue, i), c.waiters, c.waiters);
    AccountServed(c.queue, i, c.events, c.arrived, Delivered(c.nextWaiter, c.queue[i]));
    WaitServedAtOnce(c.waiters, c.events, c.nextWaiter, Delivered(c.nextWaiter, c.queue[i]));
    WithoutArrivals(c.queue, i, c.arrived);
  }

  lemma WithoutArrivals(queue: seq<Notification>, i: nat, arrived: nat)
    requires Arrivals(queue, arrived) && i < |queue|
    ensures Arrivals(Without(queue, i), arrived)
  {
  }

  lemma RegisteredUnserved(c: Client, names: seq<string>, extra: seq<string>, scope: Scope)
    requires Ok(c) && FirstAwaited(c.queue, names, scope) == |c.queue| && (forall x :: x in extra ==> !Supported(x))
    ensures NoneAwaited(c.queue, c.waiters + [Waiter(c.nextWaiter, extra + names, scope)])
  {
  }

  lemma RegisteredKeeps(c: Client, names: seq<string>, extra: seq<string>, scope: Scope)
    requires Ok(c) && FirstAwaited(c.queue, names, scope) == |c.queue| && (forall x :: x in extra ==> !Supported(x))
    ensures Ok(c.(waiters := c.waiters + [Waiter(c.nextWaiter, extra + names, scope)], nextWaiter := c.nextWaiter + 1))
  {
    hide NoneAwaited, InOrder, NotificationsAccounted, WaitsAccounted, Arrivals;
    RegisteredUnserved(c, names, extra, scope);
    WaitBegins(c.waiters, c.events, c.nextWaiter, Waiter(c.nextWaiter, extra + names, scope));
  }

  lemma WaitKeeps(c: Client, names: seq<string>, extra: seq<string>, scope: Scope)
    requires Ok(c) && (forall x :: x in extra ==> !Supported(x))
    ensures Ok(WaitAny(c, names, extra, scope).0)
  {
    hide Ok;
    if FirstAwaited(c.queue, names, scope) < |c.queue| {
      ServedKeeps(c, names, scope);
    } else {
      RegisteredKeeps(c, names, extra, scope);
    }
  }

  lemma DropAllKeeps(c: Client)
    requires Ok(c)
    ensures Ok(c.(queue := [], events := c.events + Drops(c.queue)))
  {
    hide NoneAwaited, InOrder, WaitsAccounted, NotificationsAccounted;
    FewerAwaited(c.queue, [], c.waiters, c.waiters);
    StillInOrder(c.queue, [], c.events, Drops(c.queue));
    WaitsUntouched(c.waiters, c.events, c.nextWaiter, c.queue);
    AllDroppedAccounts(c.queue, c.events, c.arrived);
  }

  lemma AllDroppedAccounts(queue: seq<Notification>, events: seq<Event>, arrived: nat)
    requires NotificationsAccounted(queue, events, arrived)
    ensures NotificationsAccounted([], events + Drops(queue), arrived)
  {
    assert Serials([]) == multiset{};
    hide Upto, Serials, SerialsOf, IdsOf;
    SerialsOfAppend(events, Drops(queue));
    DropsAccount(queue);
    assert SerialsOf(events + Drops(queue)) == Serials(queue) + SerialsOf(events);
  }

  lemma FailKeeps(c: Client)
    requires Ok(c)
    ensures Ok(Fail(c))
  {
    hide NoneAwaited, InOrder, NotificationsAccounted, WaitsAccounted, Arrivals;
    var scoped := (w: Waiter) => Scoped(w.scope);
    var stale := Select(c.waiters, scoped);
    if stale != [] {
      RejectingKeeps(c, scoped);
      DropAllKeeps(c.(waiters := Keep(c.waiters, scoped), events := c.events + Rejects(stale)));
    }
  }

  lemma DiscardKeeps(c: Client, scope: Scope)
    requires Ok(c)
    ensures Ok(Discard(c, scope))
  {
    hide Ok, Purged;
    PurgedKeeps(c, scope);
    RejectingKeeps(Purged(c, scope), (w: Waiter) => Released(scope, w));
  }

  lemma ApplyKeeps(c: Client, op: Op)
    requires Ok(c)
    ensures Ok(Apply(c, op))
  {
    hide Ok, Arrive, WaitAny, Fail, Discard, Keep, Select;
    match op
    case DoArrive(name, threadId, turnId, nested) => ArriveKeeps(c, name, threadId, turnId, nested);
    case DoWaitForAny(names, scope) => WaitKeeps(c, names, [ANY], scope);
    case DoWaitFor(name, scope) => WaitKeeps(c, [name], [], scope);
    case DoTimeOut(id) => RejectingKeeps(c, (w: Waiter) => w.id == id);
    case DoFail => FailKeeps(c);
    case DoDiscard(scope) => DiscardKeeps(c, scope);
  }

  lemma {:induction false} RunKeeps(ops: seq<Op>)
    ensures Ok(Run(ops))
    decreases |ops|
  {
    if ops != [] {
      hide Ok, Apply;
      RunKeeps(ops[..|ops| - 1]);
      ApplyKeeps(Run(ops[..|ops| - 1]), ops[|ops| - 1]);
    }
  }

  // ---- the results ----

  /** In every run, nothing buffered matches a registered waiter, and the buffer stays within its bound. */
  lemma NoBufferedIsAwaited(ops: seq<Op>)
    ensures var c := Run(ops);
            |c.queue| <= LIMIT && forall n, w | n in c.queue && w in c.waiters :: !Matches(w, n)
  {
    hide Run;
    RunKeeps(ops);
  }

  lemma AtMostOne(m: multiset<nat>, n: nat, k: nat)
    requires m <= Upto(n)
    ensures m[k] <= 1
  {
  }

  lemma {:induction false} TwiceCounted(events: seq<Event>, i: nat, j: nat)
    requires i < j < |events|
    ensures events[i].Delivered? && events[j].Delivered? && events[i].n.serial == events[j].n.serial ==>
              SerialsOf(events)[events[i].n.serial] >= 2
    ensures !events[i].Dropped? && !events[j].Dropped? && events[i].waiter == events[j].waiter ==>
              IdsOf(events)[events[i].waiter] >= 2
  {
    if i == 0 {
      SerialKnown(events[1..], events[j]);
    } else {
      TwiceCounted(events[1..], i - 1, j - 1);
    }
  }

  /** In every run, each notification reaches at most one waiter, and each waiter is settled at most once. */
  lemma DeliveredAtMostOnce(ops: seq<Op>, i: nat, j: nat)
    requires i < j < |Run(ops).events|
    ensures var e, f := Run(ops).events[i], Run(ops).events[j];
            && (e.Delivered? && f.Delivered? ==> e.n.serial != f.n.serial)
            && (!e.Dropped? && !f.Dropped? ==> e.waiter != f.waiter)
  {
    hide Run, Serials, SerialsOf, Ids, IdsOf;
    RunKeeps(ops);
    var c := Run(ops);
    TwiceCounted(c.events, i, j);
    hide NoneAwaited, InOrder, Arrivals, Upto;
    if c.events[i].Delivered? {
      AtMostOne(SerialsOf(c.events), c.arrived, c.events[i].n.serial);
    }
    if !c.events[i].Dropped? {
      AtMostOne(IdsOf(c.events), c.nextWaiter, c.events[i].waiter);
    }
  }

  /** In every run, notifications of one kind and run are delivered in the order in which they arrived. */
  lemma DeliveredInOrder(ops: seq<Op>, i: nat, j: nat)
    requires i < j < |Run(ops).events|
    ensures var e, f := Run(ops).events[i], Run(ops).events[j];
            e.Delivered? && f.Delivered? && Alike(e.n, f.n) ==> e.n.serial < f.n.serial
  {
    hide Run;
    RunKeeps(ops);
  }

  /** The place of a name in a list of names; the length when absent. */
  function Rank(names: seq<string>, name: string): (i: nat)
    ensures i <= |names| && (i < |names| <==> name in names) && (i < |names| ==> names[i] == name)
    ensures forall j :: 0 <= j < i ==> names[j] != name
  {
    if names == [] then 0 else if names[0] == name then 0 else 1 + Rank(names[1..], name)
  }

  /**
   * The turn a notification belongs to: named beside the thread, or, in messages about a turn as a whole, inside the
   * turn.
   */
  function TurnOf(n: Notification): Option<string> {
    if n.turnId.Some? then n.turnId else n.nestedTurnId
  }

  /** A notification that names its turn twice names the same turn. */
  predicate NamesOneTurn(n: Notification) {
    n.turnId.Some? && n.nestedTurnId.Some? ==> n.turnId == n.nestedTurnId
  }

  predicate SameTurn(a: Notification, b: Notification) {
    a.threadId == b.threadId && TurnOf(a) == TurnOf(b)
  }

  /** A wait is served in the order of its names: a buffered notification of an earlier name goes first. */
  lemma {:induction false} EarlierNamesFirst(queue: seq<Notification>, names: seq<string>, scope: Scope,
      earlier: Notification)
    requires FirstAwaited(queue, names, scope) < |queue| && earlier in queue && InScope(scope, earlier)
    ensures Rank(names, queue[FirstAwaited(queue, names, scope)].name) <= Rank(names, earlier.name)
    decreases |names|
  {
    if names != [] && FirstQueued(queue, names[0], scope) == |queue| {
      EarlierNamesFirst(queue, names[1..], scope, earlier);
      assert earlier.name != names[0];
    }
  }

  /** The kinds one turn's pump waits for, deltas first. */
  function PumpNames(): seq<string> {
    [DELTA, ITEM_COMPLETED, USAGE, COMPLETED]
  }

  /**
   * The end of a turn is never handed to a pump while a delta of that turn is buffered: not from the
   * buffer, where deltas are looked for first, and not on arrival, when the pump would have had it.
   * The end carries its turn id inside the turn and the delta beside the thread id; both places count.
   */
  lemma NoDeltaIsLeftBehind(ops: seq<Op>, n: Notification, delta: Notification, scope: Scope)
    requires n.name == COMPLETED && delta.name == DELTA && delta in Run(ops).queue
    requires SameTurn(n, delta) && NamesOneTurn(n)
    ensures forall w | w in Run(ops).waiters && DELTA in w.names :: !Matches(w, n)
    ensures var i := FirstAwaited(Run(ops).queue, PumpNames(), scope);
            i < |Run(ops).queue| ==> Run(ops).queue[i] != n
  {
    hide Run;
    RunKeeps(ops);
    var c := Run(ops);
    var i := FirstAwaited(c.queue, PumpNames(), scope);
    assert InScope(scope, n) ==> InScope(scope, delta);
    if i < |c.queue| && InScope(scope, delta) {
      EarlierNamesFirst(c.queue, PumpNames(), scope, delta);
    }
    forall w | w in c.waiters && DELTA in w.names ensures !Matches(w, n) {
      assert !Matches(w, delta);
    }
  }

  lemma {:induction false} EachSelectedIsDropped(queue: seq<Notification>, m: Notification)
    requires m in queue
    ensures Dropped(m) in Drops(queue)
  {
    var k :| 0 <= k < |queue| && queue[k] == m;
    assert Drops(queue)[k] == Dropped(m);
  }

  lemma {:induction false} EventCounts(events: seq<Event>, e: Event)
    requires !e.WaiterRejected?
    ensures multiset(events)[e] <= SerialsOf(events)[e.n.serial]
  {
    if events != [] {
      assert events == [events[0]] + events[1..];
      EventCounts(events[1..], e);
    }
  }

  lemma HandledOnce(c: Client, e: Event)
    requires Ok(c) && e in c.events && !e.WaiterRejected?
    ensures multiset(c.events)[e] == 1
  {
    hide Ids, IdsOf, Serials, SerialsOf, Upto, NoneAwaited, InOrder, Arrivals;
    EventCounts(c.events, e);
    AtMostOne(SerialsOf(c.events), c.arrived, e.n.serial);
  }

  /** What is in the scope a notification closes; nothing when it closes none. */
  predicate Closes(n: Notification, m: Notification) {
    Scoped(ClosedBy(n)) && InScope(ClosedBy(n), m)
  }

  lemma PurgeEffect(c: Client, n: Notification)
    requires n.serial == c.arrived && n.name == COMPLETED && FirstWaiter(c.waiters, n) < |c.waiters|
    ensures var t := Arrive(c, n.name, n.threadId, n.turnId, n.nestedTurnId);
            && (forall m :: m in t.queue <==> m in c.queue && !Closes(n, m))
            && (forall m | m in c.queue && Closes(n, m) :: Dropped(m) in t.events)
            && c.events + [Delivered(c.waiters[FirstWaiter(c.waiters, n)].id, n)] <= t.events
            && (forall e | e in t.events[|c.events| + 1..] :: e.Dropped? && e.n in c.queue && Closes(n, e.n))
  {
    hide FirstWaiter;
    var gone := (m: Notification) => InScope(ClosedBy(n), m);
    var lost := Select(c.queue, gone);
    var served := c.events + [Delivered(c.waiters[FirstWaiter(c.waiters, n)].id, n)];
    var t := Arrive(c, n.name, n.threadId, n.turnId, n.nestedTurnId);
    if Scoped(ClosedBy(n)) {
      assert t.events == served + Drops(lost) && t.queue == Keep(c.queue, gone);
      forall m | m in c.queue && Closes(n, m) ensures Dropped(m) in t.events {
        EachSelectedIsDropped(lost, m);
      }
    } else {
      assert t.events == served && t.queue == c.queue;
    }
  }

  /**
   * When the end of a turn is handed over on arrival, exactly the buffered notifications of that turn go:
   * the rest stays in its order, each that goes is let go exactly once, and no waiter awaited it, the one
   * served included.
   */
  lemma PurgeOnCompletionDropsNothingAwaited(ops: seq<Op>, n: Notification)
    requires n.serial == Run(ops).arrived && n.name == COMPLETED
    requires FirstWaiter(Run(ops).waiters, n) < |Run(ops).waiters|
    ensures var c := Run(ops);
            var t := Arrive(c, n.name, n.threadId, n.turnId, n.nestedTurnId);
            && (forall m :: m in t.queue <==> m in c.queue && !Closes(n, m))
            && Ascending(t.queue)
            && (forall m | m in c.queue && Closes(n, m) :: multiset(t.events)[Dropped(m)] == 1)
            && (forall m, w | m in c.queue && Closes(n, m) && w in c.waiters :: !Matches(w, m))
            && c.events + [Delivered(c.waiters[FirstWaiter(c.waiters, n)].id, n)] <= t.events
            && (forall e | e in t.events[|c.events| + 1..] :: e.Dropped? && e.n in c.queue && Closes(n, e.n))
  {
    hide Run, Arrive, Closes, Matches, NotificationsAccounted, WaitsAccounted, InOrder, FirstWaiter;
    var c := Run(ops);
    var t := Arrive(c, n.name, n.threadId, n.turnId, n.nestedTurnId);
    RunKeeps(ops);
    ArriveKeeps(c, n.name, n.threadId, n.turnId, n.nestedTurnId);
    PurgeEffect(c, n);
    forall m | m in c.queue && Closes(n, m) ensures multiset(t.events)[Dropped(m)] == 1 {
      HandledOnce(t, Dropped(m));
    }
  }

  /** Releasing a scope removes exactly the buffered notifications in it and exactly the waiters that carry its ids. */
  lemma DiscardIsExact(c: Client, scope: Scope)
    requires Scoped(scope)
    ensures forall n :: n in Discard(c, scope).queue <==> n in c.queue && !InScope(scope, n)
    ensures forall w :: w in Discard(c, scope).waiters <==> w in c.waiters && !Released(scope, w)
    ensures forall w :: w in c.waiters && w !in Discard(c, scope).waiters ==>
        WaiterRejected(w.id) in Discard(c, scope).events
  {
    var gone := (w: Waiter) => Released(scope, w);
    var stale := Select(c.waiters, gone);
    forall w | w in c.waiters && w !in Discard(c, scope).waiters
        ensures WaiterRejected(w.id) in Discard(c, scope).events {
      assert w in stale;
      var k :| 0 <= k < |stale| && stale[k] == w;
      assert Rejects(stale)[k] == WaiterRejected(w.id);
    }
  }

  lemma {:induction false} WaitCounts(events: seq<Event>, e: Event)
    requires !e.Dropped?
    ensures multiset(events)[e] <= IdsOf(events)[e.waiter]
  {
    if events != [] {
      assert events == [events[0]] + events[1..];
      WaitCounts(events[1..], e);
    }
  }

  lemma SettledOnce(c: Client, e: Event)
    requires Ok(c) && e in c.events && !e.Dropped?
    ensures multiset(c.events)[e] == 1
  {
    hide Ids, IdsOf, Serials, SerialsOf, Upto, NoneAwaited, InOrder, Arrivals;
    WaitCounts(c.events, e);
    AtMostOne(IdsOf(c.events), c.nextWaiter, e.waiter);
  }

  /** The events of a release: those that go are let go, those that wait are rejected, and nothing else happens. */
  lemma DiscardEvents(c: Client, scope: Scope)
    requires Scoped(scope)
    ensures var t := Discard(c, scope);
            && c.events <= t.events
            && (forall n | n in c.queue && InScope(scope, n) :: Dropped(n) in t.events)
            && (forall e | e in t.events[|c.events|..] ::
                  || (e.Dropped? && e.n in c.queue && InScope(scope, e.n))
                  || (e.WaiterRejected? && exists w :: w in c.waiters && Released(scope, w) && w.id == e.waiter))
  {
    hide Released, InScope;
    var gone, stale := (n: Notification) => InScope(scope, n), (w: Waiter) => Released(scope, w);
    var lost, left := Select(c.queue, gone), Select(c.waiters, stale);
    var t := Discard(c, scope);
    assert t.events == c.events + Drops(lost) + Rejects(left);
    hide Discard, Keep, Select, Drops, Rejects;
    AppendedTwice(c.events, Drops(lost), Rejects(left));
    forall n | n in lost ensures Dropped(n) in t.events {
      EachSelectedIsDropped(lost, n);
    }
    forall e | e in t.events[|c.events|..]
      ensures (e.Dropped? && e.n in lost) || (e.WaiterRejected? && exists w :: w in left && w.id == e.waiter)
    {
      DropOrReject(lost, left, e);
    }
  }

  lemma AppendedTwice(a: seq<Event>, b: seq<Event>, c: seq<Event>)
    ensures a <= a + b + c && (a + b + c)[|a|..] == b + c
    ensures forall e :: e in b ==> e in a + b + c
  {
  }

  lemma DropOrReject(lost: seq<Notification>, left: seq<Waiter>, e: Event)
    requires e in Drops(lost) + Rejects(left)
    ensures (e.Dropped? && e.n in lost) || (e.WaiterRejected? && exists w :: w in left && w.id == e.waiter)
  {
    if e in Drops(lost) {
      var i :| 0 <= i < |lost| && Drops(lost)[i] == e;
    } else {
      var i :| 0 <= i < |left| && Rejects(left)[i] == e;
      assert left[i] in left;
    }
  }

  /**
   * Releasing a scope in any run: exactly its notifications leave the buffer, the rest keeps its order, and
   * exactly the waiters that carry its ids go; each of them is let go or rejected exactly once, over the
   * whole run, and nothing else happens.
   */
  lemma ReleaseIsExact(ops: seq<Op>, scope: Scope)
    requires Scoped(scope)
    ensures var c := Run(ops);
            var t := Discard(c, scope);
            && (forall n :: n in t.queue <==> n in c.queue && !InScope(scope, n)) && Ascending(t.queue)
            && (forall w :: w in t.waiters <==> w in c.waiters && !Released(scope, w))
            && (forall n | n in c.queue && InScope(scope, n) :: multiset(t.events)[Dropped(n)] == 1)
            && (forall w | w in c.waiters && Released(scope, w) :: multiset(t.events)[WaiterRejected(w.id)] == 1)
            && c.events <= t.events
            && (forall e | e in t.events[|c.events|..] ::
                  || (e.Dropped? && e.n in c.queue && InScope(scope, e.n))
                  || (e.WaiterRejected? && exists w :: w in c.waiters && Released(scope, w) && w.id == e.waiter))
  {
    hide Run, Discard, InScope, Released, NotificationsAccounted, WaitsAccounted, InOrder, NoneAwaited;
    RunKeeps(ops);
    var c := Run(ops);
    var t := Discard(c, scope);
    DiscardKeeps(c, scope);
    DiscardIsExact(c, scope);
    DiscardEvents(c, scope);
    forall n | n in c.queue && InScope(scope, n) ensures multiset(t.events)[Dropped(n)] == 1 {
      HandledOnce(t, Dropped(n));
    }
    forall w | w in c.waiters && Released(scope, w) ensures multiset(t.events)[WaiterRejected(w.id)] == 1 {
      SettledOnce(t, WaiterRejected(w.id));
    }
  }

  /**
   * Of two waiters for the same notification only the older is served. A pump that registers a second
   * waiter while its first is outstanding therefore misses what the first one is given.
   */
  lemma OnlyTheOlderWaiterIsServed(c: Client, n: Notification, i: nat, j: nat)
    requires Ok(c) && n.serial == c.arrived && i < j < |c.waiters| && Matches(c.waiters[i], n)
        && Matches(c.waiters[j], n)
    requires forall k :: 0 <= k < i ==> !Matches(c.waiters[k], n)
    ensures var t := Arrive(c, n.name, n.threadId, n.turnId, n.nestedTurnId);
            Delivered(c.waiters[i].id, n) in t.events && c.waiters[i] !in t.waiters && c.waiters[j] in t.waiters
  {
    hide Ok, Matches, Purged;
    var rest := Without(c.waiters, i);
    var served := c.events + [Delivered(c.waiters[i].id, n)];
    var c2 := c.(arrived := c.arrived + 1, waiters := rest, events := served);
    var t := Arrive(c, n.name, n.threadId, n.turnId, n.nestedTurnId);
    assert FirstWaiter(c.waiters, n) == i;
    assert t == c2 || t == Purged(c2, ClosedBy(n));
    PurgedAdds(c2, ClosedBy(n));
    assert rest[j - 1] == c.waiters[j];
    hide Arrive, FirstWaiter;
    WaitersDiffer(c);
    assert served[|c.events|] in t.events;
  }

  lemma PurgedAdds(c: Client, scope: Scope)
    ensures Purged(c, scope).waiters == c.waiters && c.events <= Purged(c, scope).events
  {
  }

  lemma WaitersDiffer(c: Client)
    requires Ok(c)
    ensures forall i, j :: 0 <= i < j < |c.waiters| ==> c.waiters[i].id != c.waiters[j].id
  {
    hide NoneAwaited, InOrder, Arrivals, NotificationsAccounted, Upto, IdsOf;
    forall i, j | 0 <= i < j < |c.waiters| ensures c.waiters[i].id != c.waiters[j].id {
      if c.waiters[i].id == c.waiters[j].id {
        SameIdCounts(c.waiters, i, j);
        AtMostOne(Ids(c.waiters), c.nextWaiter, c.waiters[i].id);
      }
    }
  }

  lemma {:induction false} IdCounts(waiters: seq<Waiter>, i: nat)
    requires i < |waiters|
    ensures waiters[i].id in Ids(waiters)
  {
    if i > 0 {
      IdCounts(waiters[1..], i - 1);
    }
  }

  lemma {:induction false} SameIdCounts(waiters: seq<Waiter>, i: nat, j: nat)
    requires i < j < |waiters| && waiters[i].id == waiters[j].id
    ensures Ids(waiters)[waiters[i].id] >= 2
  {
    if i == 0 {
      IdCounts(waiters[1..], j - 1);
    } else {
      SameIdCounts(waiters[1..], i - 1, j - 1);
    }
  }
}
