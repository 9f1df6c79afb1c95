/**
 * What each operation of the deferred-tool broker does, as functions on its state, and the invariant
 * that ties its four maps together. Two tapes that the program does not keep, `created` and `ended`,
 * record the public ids in the order they were indexed and in the order their entries ended; the
 * bounded memory of public ids is exact with respect to the second one.
 */
module BrokerSpec {
  import opened Options
  import opened Text
  import opened OrderedMaps
  import opened BrokerKeys

  datatype Ending = Resolved | Expired | Cancelled

  datatype Entry<C> = Entry(profile: Profile, provider: Provider, sessionId: string, context: Option<C>,
      waiters: seq<nat>)

  datatype Answer<C> = GotResult(text: string) | GotContext(context: Option<C>) | Failed(how: Ending) | NoSuchCall

  /** One promise handed out by `awaitCall`, together with what settled it. */
  datatype Settlement<C> = Settlement(promise: nat, answer: Answer<C>)

  datatype Outcome = OutResolved | OutDuplicate | OutStale | OutUnknown

  datatype Claim<C> = Claim(outcome: Outcome, context: Option<C>)

  datatype State<C> = State(
    maxPending: nat,
    entries: OrderedMap<string, Entry<C>>,
    terminal: OrderedMap<string, Ending>,
    publicIndex: OrderedMap<string, string>,
    publicTerminal: OrderedMap<string, Ending>,
    nextPromise: nat,
    settled: seq<Settlement<C>>,
    created: seq<string>,
    ended: seq<(string, Ending)>)

  function Initial<C>(maxPending: nat): State<C> {
    State(maxPending, Empty(), Empty(), Empty(), Empty(), 0, [], [], [])
  }

  // ---- the operations ----

  /** The public id indexed for a composite key, found by scanning the index in order. */
  function PublicIdOf(order: seq<string>, items: map<string, string>, id: string): (r: Option<string>)
    requires forall p :: p in order ==> p in items
    ensures r.Some? ==> r.value in order && items[r.value] == id
    ensures r.None? ==> forall p :: p in order ==> items[p] != id
  {
    if order == [] then None
    else if items[order[0]] == id then Some(order[0])
    else PublicIdOf(order[1..], items, id)
  }

  function SettleAll<C>(waiters: seq<nat>, answer: Answer<C>): (r: seq<Settlement<C>>)
    ensures |r| == |waiters|
    ensures forall i :: 0 <= i < |r| ==> r[i] == Settlement(waiters[i], answer)
  {
    seq(|waiters|, i requires 0 <= i < |waiters| => Settlement(waiters[i], answer))
  }

  function RememberTerminal<C>(st: State<C>, id: string, how: Ending): State<C>
    requires MapsValid(st)
  {
    var terminal := Newest(st.terminal.Put(id, how), st.maxPending);
    match PublicIdOf(st.publicIndex.order, st.publicIndex.items, id)
    case None => st.(terminal := terminal)
    case Some(pid) =>
      st.(publicIndex := st.publicIndex.Remove(pid),
          publicTerminal := Newest(st.publicTerminal.Put(pid, how), st.maxPending),
          terminal := terminal,
          ended := st.ended + [(pid, how)])
  }

  /** An entry leaves: it is removed, remembered, and all its waiters are settled alike. */
  function End<C>(st: State<C>, id: string, how: Ending, answer: Answer<C>): State<C>
    requires st.entries.Has(id) && MapsValid(st)
  {
    var gone := RememberTerminal(st.(entries := st.entries.Remove(id)), id, how);
    gone.(settled := st.settled + SettleAll(st.entries.items[id].waiters, answer))
  }

  function Fail<C>(st: State<C>, id: string, how: Ending): State<C>
    requires MapsValid(st)
  {
    if st.entries.Has(id) then End(st, id, how, Failed(how)) else st
  }

  predicate PublicIdTaken<C>(st: State<C>, pid: Option<string>) {
    pid.Some? && (st.publicIndex.Has(pid.value) || st.publicTerminal.Has(pid.value))
  }

  function Inserted<C>(st: State<C>, id: string, key: BrokerKey, context: Option<C>): State<C>
    requires key.profile.Some?
  {
    var entry := Entry(key.profile.value, key.provider, key.sessionId, context, []);
    var st1 := st.(terminal := st.terminal.Remove(id), entries := st.entries.Put(id, entry));
    if key.publicId.None? then st1
    else st1.(publicIndex := st1.publicIndex.Put(key.publicId.value, id), created := st1.created + [key.publicId.value])
  }

  /** `createPendingCall`. The refusal at capacity comes after the former terminal mark was dropped. */
  function Create<C>(st: State<C>, key: BrokerKey, context: Option<C>, aborted: bool): (State<C>, Option<Refusal>)
    requires MapsValid(st)
  {
    match KeyOf(key)
    case Err(e) => (st, Some(e))
    case Ok(id) =>
      if st.entries.Has(id) then (st, Some(DuplicateCall))
      else if PublicIdTaken(st, key.publicId) then (st, Some(DuplicatePublicId))
      else if st.entries.Size() >= st.maxPending then (st.(terminal := st.terminal.Remove(id)), Some(AtCapacity))
      else
        var inserted := Inserted(st, id, key, context);
        (if aborted then Fail(inserted, id, Cancelled) else inserted, None)
  }

  function Await<C>(st: State<C>, key: BrokerKey): (State<C>, Result<nat, Refusal>) {
    match KeyOf(key)
    case Err(e) => (st, Err(e))
    case Ok(id) =>
      var promise := st.nextPromise;
      if !st.entries.Has(id) then
        (st.(nextPromise := promise + 1, settled := st.settled + [Settlement(promise, NoSuchCall)]), Ok(promise))
      else
        var entry := st.entries.items[id];
        (st.(nextPromise := promise + 1,
             entries := st.entries.Put(id, entry.(waiters := entry.waiters + [promise]))), Ok(promise))
  }

  function TerminalOutcome(memory: map<string, Ending>, id: string): Outcome {
    if id !in memory then OutUnknown else if memory[id] == Resolved then OutDuplicate else OutStale
  }

  function Take<C>(st: State<C>, id: string): (State<C>, Claim<C>)
    requires MapsValid(st)
  {
    if !st.entries.Has(id) then (st, Claim(TerminalOutcome(st.terminal.items, id), None))
    else
      var context := st.entries.items[id].context;
      (End(st, id, Resolved, GotContext(context)), Claim(OutResolved, context))
  }

  function ClaimByPublicId<C>(st: State<C>, pid: string, expected: Option<Profile>): (State<C>, Claim<C>)
    requires MapsValid(st)
  {
    if !st.publicIndex.Has(pid) then (st, Claim(TerminalOutcome(st.publicTerminal.items, pid), None))
    else
      var id := st.publicIndex.items[pid];
      if expected.Some? && (!st.entries.Has(id) || st.entries.items[id].profile != expected.value)
      then (st, Claim(OutUnknown, None))
      else Take(st, id)
  }

  function ClaimCall<C>(st: State<C>, key: BrokerKey): (State<C>, Result<Claim<C>, Refusal>)
    requires MapsValid(st)
  {
    match KeyOf(key)
    case Err(e) => (st, Err(e))
    case Ok(id) => var (st', claim) := Take(st, id); (st', Ok(claim))
  }

  function ResolveCall<C>(st: State<C>, key: BrokerKey, text: string): (State<C>, Result<Outcome, Refusal>)
    requires MapsValid(st)
  {
    match KeyOf(key)
    case Err(e) => (st, Err(e))
    case Ok(id) =>
      if !st.entries.Has(id) then (st, Ok(TerminalOutcome(st.terminal.items, id)))
      else (End(st, id, Resolved, GotResult(text)), Ok(OutResolved))
  }

  datatype Filter = Filter(provider: Option<Provider>, sessionId: Option<string>)

  predicate InScope(id: string, filter: Filter) {
    var scope := SplitScope(id);
    && (filter.provider.Some? ==> ProviderText(filter.provider.value) == scope.provider)
    && (filter.sessionId.Some? ==> filter.sessionId.value == scope.sessionId)
  }

  /** `cancelScope` over a snapshot of the keys. */
  function CancelAll<C>(st: State<C>, ids: seq<string>, filter: Filter): State<C>
    requires MapsValid(st)
    decreases |ids|
  {
    if ids == [] then st
    else
      var st' := if InScope(ids[0], filter) then Fail(st, ids[0], Cancelled) else st;
      CancelAll(st', ids[1..], filter)
  }

  function CancelScope<C>(st: State<C>, filter: Filter): State<C>
    requires MapsValid(st)
  {
    CancelAll(st, st.entries.order, filter)
  }

  // ---- what every state keeps ----

  function Ids(ended: seq<(string, Ending)>): (r: seq<string>)
    ensures |r| == |ended|
    ensures forall i :: 0 <= i < |r| ==> r[i] == ended[i].0
  {
    seq(|ended|, i requires 0 <= i < |ended| => ended[i].0)
  }

  function Promises<C>(settled: seq<Settlement<C>>): (r: seq<nat>)
    ensures |r| == |settled|
    ensures forall i :: 0 <= i < |r| ==> r[i] == settled[i].promise
  {
    seq(|settled|, i requires 0 <= i < |settled| => settled[i].promise)
  }

  ghost predicate MapsValid<C>(st: State<C>) {
    st.entries.Valid() && st.terminal.Valid() && st.publicIndex.Valid() && st.publicTerminal.Valid()
  }

  ghost predicate Bounded<C>(st: State<C>) {
    && st.entries.Size() <= st.maxPending
    && st.terminal.Size() <= st.maxPending
    && st.publicTerminal.Size() <= st.maxPending
  }

  /** The live index is one-to-one into the live entries. */
  ghost predicate Indexes<E>(index: map<string, string>, entries: map<string, E>) {
    && (forall p :: p in index ==> index[p] in entries)
    && (forall p, q | p in index && q in index :: index[p] == index[q] ==> p == q)
  }

  ghost predicate Apart<A, B>(live: map<string, A>, memory: map<string, B>) {
    forall k :: k in live ==> k !in memory
  }

  /** `memory` is exactly the last `n` of `ended`, in order. */
  ghost predicate WindowOf(ended: seq<(string, Ending)>, memory: OrderedMap<string, Ending>, n: nat) {
    var window := LastN(ended, n);
    && memory.order == Ids(window)
    && forall i :: 0 <= i < |window| ==> window[i].0 in memory.items && memory.items[window[i].0] == window[i].1
  }

  /** Every indexed public id either ended or is still live. */
  ghost predicate Balanced(created: seq<string>, ended: seq<(string, Ending)>, live: set<string>) {
    multiset(created) == multiset(Ids(ended)) + multiset(live)
  }

  predicate AllOpen(waiters: seq<nat>, done: seq<nat>, next: nat) {
    forall w :: w in waiters ==> w < next && w !in done
  }

  /** Every promise is settled at most once, and is unsettled exactly while one live entry holds it. */
  ghost predicate PromisesKept<C>(entries: map<string, Entry<C>>, done: seq<nat>, next: nat) {
    && Distinct(done)
    && (forall w :: w in done ==> w < next)
    && (forall id :: id in entries ==> Distinct(entries[id].waiters) && AllOpen(entries[id].waiters, done, next))
    && (forall a, b, w | a in entries && b in entries :: w in entries[a].waiters && w in entries[b].waiters ==> a == b)
    && (forall w: nat :: w < next ==> w in done || Held(entries, w))
  }

  ghost predicate Held<C>(entries: map<string, Entry<C>>, w: nat) {
    exists id :: id in entries && w in entries[id].waiters
  }

  /** The key of an entry spells the profile, provider and session stored in it. */
  ghost predicate KeyedBy(id: string, profile: Profile, provider: Provider, sessionId: string) {
    exists turn, tool :: id == Compose(profile, provider, sessionId, turn, tool)
  }

  ghost predicate Keyed<C>(entries: map<string, Entry<C>>) {
    forall id :: id in entries ==> KeyedBy(id, entries[id].profile, entries[id].provider, entries[id].sessionId)
  }

  ghost predicate Valid<C>(st: State<C>) {
    && MapsValid(st)
    && Bounded(st)
    && Indexes(st.publicIndex.items, st.entries.items)
    && Apart(st.entries.items, st.terminal.items)
    && Apart(st.publicIndex.items, st.publicTerminal.items)
    && Keyed(st.entries.items)
    && WindowOf(st.ended, st.publicTerminal, st.maxPending)
    && Balanced(st.created, st.ended, st.publicIndex.items.Keys)
    && PromisesKept(st.entries.items, Promises(st.settled), st.nextPromise)
  }

  lemma InitialIsValid<C>(maxPending: nat)
    ensures Valid<C>(Initial(maxPending))
  {
  }

  // ---- ending an entry ----

  lemma AllSettled<C>(settled: seq<Settlement<C>>, waiters: seq<nat>, answer: Answer<C>)
    ensures Promises(settled + SettleAll(waiters, answer)) == Promises(settled) + waiters
  {
  }

  /** The whole effect of ending one entry, map by map. */
  lemma EndEffect<C>(st: State<C>, id: string, how: Ending, answer: Answer<C>)
    requires MapsValid(st) && Indexes(st.publicIndex.items, st.entries.items) && st.entries.Has(id)
    ensures var st' := End(st, id, how, answer);
            var pid := PublicIdOf(st.publicIndex.order, st.publicIndex.items, id);
            && MapsValid(st')
            && st'.maxPending == st.maxPending && st'.nextPromise == st.nextPromise && st'.created == st.created
            && st'.entries == st.entries.Remove(id)
            && st'.terminal == Newest(st.terminal.Put(id, how), st.maxPending)
            && Promises(st'.settled) == Promises(st.settled) + st.entries.items[id].waiters
            && (pid.None? ==>
                  && (forall p :: p in st.publicIndex.items ==> st.publicIndex.items[p] != id)
                  && st'.publicIndex == st.publicIndex && st'.publicTerminal == st.publicTerminal
                      && st'.ended == st.ended)
            && (pid.Some? ==>
                  && pid.value in st.publicIndex.items && st.publicIndex.items[pid.value] == id
                  && st'.publicIndex == st.publicIndex.Remove(pid.value)
                  && st'.publicTerminal == Newest(st.publicTerminal.Put(pid.value, how), st.maxPending)
                  && st'.ended == st.ended + [(pid.value, how)])
  {
    hide Indexes, Newest, Distinct, Ids, Without, LastN, Promises;
    AllSettled(st.settled, st.entries.items[id].waiters, answer);
  }

  lemma LastNSnoc<T>(s: seq<T>, x: T, n: nat)
    ensures LastN(LastN(s, n) + [x], n) == LastN(s + [x], n)
  {
  }

  lemma IdsLastN(s: seq<(string, Ending)>, n: nat)
    ensures Ids(LastN(s, n)) == LastN(Ids(s), n)
  {
  }

  lemma WindowOfKept(all: seq<(string, Ending)>, put: OrderedMap<string, Ending>, n: nat,
      kept: OrderedMap<string, Ending>)
    requires forall i :: 0 <= i < |all| ==> all[i].0 in put.items && put.items[all[i].0] == all[i].1
    requires kept.order == Ids(LastN(all, n))
    requires forall k :: k in kept.order ==> k in put.items && k in kept.items && kept.items[k] == put.items[k]
    ensures WindowOf(all, kept, n)
  {
    var window := LastN(all, n);
    forall i | 0 <= i < |window|
      ensures window[i].0 in kept.items && kept.items[window[i].0] == window[i].1
    {
      assert window[i] == all[i + (|all| - |window|)];
      assert kept.order[i] == window[i].0;
      assert window[i].0 in kept.order;
    }
  }

  lemma PutAgrees(before: seq<(string, Ending)>, memory: OrderedMap<string, Ending>, pid: string, how: Ending)
    requires memory.order == Ids(before) && pid !in memory.items
    requires forall i :: 0 <= i < |before| ==> before[i].0 in memory.items && memory.items[before[i].0] == before[i].1
    ensures var all := before + [(pid, how)];
            var put := memory.Put(pid, how);
            && put.order == Ids(all)
            && forall i :: 0 <= i < |all| ==> all[i].0 in put.items && put.items[all[i].0] == all[i].1
  {
  }

  lemma WindowOfNewest(all: seq<(string, Ending)>, put: OrderedMap<string, Ending>, n: nat)
    requires put.Valid() && put.order == Ids(all)
    requires forall i :: 0 <= i < |all| ==> all[i].0 in put.items && put.items[all[i].0] == all[i].1
    ensures WindowOf(all, Newest(put, n), n)
  {
    hide Newest, Ids, LastN, Distinct, WindowOf;
    IdsLastN(all, n);
    WindowOfKept(all, put, n, Newest(put, n));
  }

  lemma SameWindow(a: seq<(string, Ending)>, b: seq<(string, Ending)>, memory: OrderedMap<string, Ending>, n: nat)
    requires LastN(a, n) == LastN(b, n) && WindowOf(a, memory, n)
    ensures WindowOf(b, memory, n)
  {
    hide LastN, Ids;
  }

  lemma WindowSlides(ended: seq<(string, Ending)>, memory: OrderedMap<string, Ending>, n: nat, pid: string, how: Ending)
    requires memory.Valid() && WindowOf(ended, memory, n) && pid !in memory.items
    ensures WindowOf(ended + [(pid, how)], Newest(memory.Put(pid, how), n), n)
  {
    hide Newest, Ids, LastN, Distinct, OrderedMap.Valid, OrderedMap.Put;
    var before := LastN(ended, n);
    PutAgrees(before, memory, pid, how);
    hide WindowOf;
    WindowOfNewest(before + [(pid, how)], memory.Put(pid, how), n);
    LastNSnoc(ended, (pid, how), n);
    SameWindow(before + [(pid, how)], ended + [(pid, how)], Newest(memory.Put(pid, how), n), n);
  }

  lemma BalanceAfterEnd(created: seq<string>, ended: seq<(string, Ending)>, live: set<string>, pid: string, how: Ending)
    requires Balanced(created, ended, live) && pid in live
    ensures Balanced(created, ended + [(pid, how)], live - {pid})
  {
    assert Ids(ended + [(pid, how)]) == Ids(ended) + [pid];
    assert multiset(live) == multiset(live - {pid}) + multiset{pid};
  }

  lemma PromisesAfterEnd<C>(entries: map<string, Entry<C>>, done: seq<nat>, next: nat, id: string)
    requires PromisesKept(entries, done, next) && id in entries
    ensures PromisesKept(entries - {id}, done + entries[id].waiters, next)
  {
    var entries' := entries - {id};
    var done' := done + entries[id].waiters;
    DistinctConcat(done, entries[id].waiters);
    forall w: nat | w < next ensures w in done' || Held(entries', w) {
      if w !in done {
        assert Held(entries, w);
        var a :| a in entries && w in entries[a].waiters;
        if a != id {
          assert a in entries' && w in entries'[a].waiters;
        }
      }
    }
  }

  lemma ValidMaps<C>(st: State<C>)
    requires Valid(st)
    ensures MapsValid(st) && Indexes(st.publicIndex.items, st.entries.items)
  {
  }

  lemma PublicMapsValid<C>(st: State<C>)
    requires MapsValid(st)
    ensures st.publicIndex.Valid() && st.publicTerminal.Valid() && st.terminal.Valid() && st.entries.Valid()
  {
  }

  lemma EndKeepsEntries<C>(st: State<C>, id: string, how: Ending, answer: Answer<C>)
    requires MapsValid(st) && Indexes(st.publicIndex.items, st.entries.items) && st.entries.Has(id)
    requires Apart(st.entries.items, st.terminal.items) && Keyed(st.entries.items) && Bounded(st)
    ensures var st' := End(st, id, how, answer);
            && Apart(st'.entries.items, st'.terminal.items) && Keyed(st'.entries.items)
            && Bounded(st')
  {
    EndEffect(st, id, how, answer);
    PublicMapsValid(st);
    hide End, Promises, Ids, SettleAll, Distinct, KeyedBy, Newest, Indexes, MapsValid, Apart;
    ApartAfterEnd(st.entries.items, st.terminal, id, how, st.maxPending);
  }

  lemma NewestIsSubmap<K, V>(m: OrderedMap<K, V>, n: nat)
    requires m.Valid()
    ensures Newest(m, n).items.Keys <= m.items.Keys
  {
  }

  lemma IndexAfterEnd<E>(index: map<string, string>, entries: map<string, E>, pid: string, id: string)
    requires Indexes(index, entries) && pid in index && index[pid] == id
    ensures Indexes(index - {pid}, entries - {id})
  {
  }

  lemma ApartAfterEnd<A>(live: map<string, A>, memory: OrderedMap<string, Ending>, k: string, how: Ending, n: nat)
    requires Apart(live, memory.items) && memory.Valid()
    ensures Apart(live - {k}, Newest(memory.Put(k, how), n).items)
  {
    NewestIsSubmap(memory.Put(k, how), n);
    hide Newest, Distinct;
  }

  lemma EndKeepsIndex<C>(st: State<C>, id: string, how: Ending, answer: Answer<C>)
    requires MapsValid(st) && Indexes(st.publicIndex.items, st.entries.items) && st.entries.Has(id)
    requires Apart(st.publicIndex.items, st.publicTerminal.items)
    ensures var st' := End(st, id, how, answer);
            && Indexes(st'.publicIndex.items, st'.entries.items)
            && Apart(st'.publicIndex.items, st'.publicTerminal.items)
  {
    hide End, Promises, Ids, SettleAll, Distinct, Newest, Apart;
    EndEffect(st, id, how, answer);
    PublicMapsValid(st);
    hide MapsValid;
    var pid := PublicIdOf(st.publicIndex.order, st.publicIndex.items, id);
    if pid.Some? {
      IndexAfterEnd(st.publicIndex.items, st.entries.items, pid.value, id);
      ApartAfterEnd(st.publicIndex.items, st.publicTerminal, pid.value, how, st.maxPending);
    }
  }

  lemma EndKeepsHistory<C>(st: State<C>, id: string, how: Ending, answer: Answer<C>)
    requires MapsValid(st) && Indexes(st.publicIndex.items, st.entries.items) && st.entries.Has(id)
    requires Apart(st.publicIndex.items, st.publicTerminal.items)
    requires WindowOf(st.ended, st.publicTerminal, st.maxPending)
    requires Balanced(st.created, st.ended, st.publicIndex.items.Keys)
    ensures var st' := End(st, id, how, answer);
            && WindowOf(st'.ended, st'.publicTerminal, st'.maxPending)
            && Balanced(st'.created, st'.ended, st'.publicIndex.items.Keys)
  {
    hide WindowOf, Balanced, End, Promises, Ids, SettleAll, Distinct;
    EndEffect(st, id, how, answer);
    PublicMapsValid(st);
    hide MapsValid;
    var pid := PublicIdOf(st.publicIndex.order, st.publicIndex.items, id);
    if pid.Some? {
      WindowSlides(st.ended, st.publicTerminal, st.maxPending, pid.value, how);
      BalanceAfterEnd(st.created, st.ended, st.publicIndex.items.Keys, pid.value, how);
      assert st.publicIndex.Remove(pid.value).items.Keys == st.publicIndex.items.Keys - {pid.value};
    }
  }

  lemma EndKeeps<C>(st: State<C>, id: string, how: Ending, answer: Answer<C>)
    requires Valid(st) && st.entries.Has(id)
    ensures Valid(End(st, id, how, answer))
  {
    hide End, MapsValid, Bounded, Indexes, Apart, Keyed, WindowOf, Balanced, PromisesKept, Promises;
    EndEffect(st, id, how, answer);
    EndKeepsEntries(st, id, how, answer);
    EndKeepsIndex(st, id, how, answer);
    EndKeepsHistory(st, id, how, answer);
    PromisesAfterEnd(st.entries.items, Promises(st.settled), st.nextPromise, id);
  }

  lemma FailKeeps<C>(st: State<C>, id: string, how: Ending)
    requires Valid(st)
    ensures Valid(Fail(st, id, how))
  {
    hide End;
    if st.entries.Has(id) {
      EndKeeps(st, id, how, Failed(how));
    }
  }

  lemma TakeKeeps<C>(st: State<C>, id: string)
    requires Valid(st)
    ensures Valid(Take(st, id).0)
  {
    hide End;
    if st.entries.Has(id) {
      EndKeeps(st, id, Resolved, GotContext(st.entries.items[id].context));
    }
  }

  // ---- creating and awaiting ----

  lemma PromisesAfterInsert<C>(entries: map<string, Entry<C>>, done: seq<nat>, next: nat, id: string, entry: Entry<C>)
    requires PromisesKept(entries, done, next) && id !in entries && entry.waiters == []
    ensures PromisesKept(entries[id := entry], done, next)
  {
    var entries' := entries[id := entry];
    forall w: nat | w < next ensures w in done || Held(entries', w) {
      if w !in done {
        assert Held(entries, w);
        var a :| a in entries && w in entries[a].waiters;
        assert a in entries' && w in entries'[a].waiters;
      }
    }
  }

  lemma PromisesAfterAwait<C>(entries: map<string, Entry<C>>, done: seq<nat>, next: nat, id: string, entry: Entry<C>)
    requires PromisesKept(entries, done, next) && id in entries && entry.waiters == entries[id].waiters + [next]
    ensures PromisesKept(entries[id := entry], done, next + 1)
  {
    var entries' := entries[id := entry];
    assert forall a :: a in entries ==> next !in entries[a].waiters;
    forall w: nat | w < next + 1 ensures w in done || Held(entries', w) {
      if w == next {
        assert w in entries'[id].waiters;
      } else if w !in done {
        assert Held(entries, w);
        var a :| a in entries && w in entries[a].waiters;
        assert a in entries' && w in entries'[a].waiters;
      }
    }
  }

  lemma PromisesAfterRejection<C>(entries: map<string, Entry<C>>, done: seq<nat>, next: nat)
    requires PromisesKept(entries, done, next)
    ensures PromisesKept(entries, done + [next], next + 1)
  {
    DistinctConcat(done, [next]);
    forall w: nat | w < next + 1 ensures w in done + [next] || Held(entries, w) {
    }
  }

  lemma BalanceAfterInsert(created: seq<string>, ended: seq<(string, Ending)>, live: set<string>, pid: string)
    requires Balanced(created, ended, live) && pid !in live
    ensures Balanced(created + [pid], ended, live + {pid})
  {
    assert multiset(live + {pid}) == multiset(live) + multiset{pid};
  }

  lemma InsertKeepsMaps<C>(st: State<C>, id: string, key: BrokerKey, context: Option<C>)
    requires MapsValid(st) && Bounded(st) && KeyOf(key) == Ok(id) && !st.entries.Has(id)
    requires st.entries.Size() < st.maxPending
    ensures MapsValid(Inserted(st, id, key, context)) && Bounded(Inserted(st, id, key, context))
  {
    hide Distinct;
  }

  lemma InsertKeepsEntries<C>(st: State<C>, id: string, key: BrokerKey, context: Option<C>)
    requires KeyOf(key) == Ok(id) && !st.entries.Has(id)
    requires Apart(st.entries.items, st.terminal.items) && Keyed(st.entries.items)
    ensures var st' := Inserted(st, id, key, context);
            Apart(st'.entries.items, st'.terminal.items) && Keyed(st'.entries.items)
  {
    assert KeyedBy(id, key.profile.value, key.provider, key.sessionId);
    hide KeyedBy, KeyOf;
  }

  lemma InsertKeepsIndex<C>(st: State<C>, id: string, key: BrokerKey, context: Option<C>)
    requires key.profile.Some? && !st.entries.Has(id) && !PublicIdTaken(st, key.publicId)
    requires Indexes(st.publicIndex.items, st.entries.items) && Apart(st.publicIndex.items, st.publicTerminal.items)
    requires Balanced(st.created, st.ended, st.publicIndex.items.Keys)
    ensures var st' := Inserted(st, id, key, context);
            && Indexes(st'.publicIndex.items, st'.entries.items)
                && Apart(st'.publicIndex.items, st'.publicTerminal.items)
            && Balanced(st'.created, st'.ended, st'.publicIndex.items.Keys)
  {
    hide Balanced;
    if key.publicId.Some? {
      BalanceAfterInsert(st.created, st.ended, st.publicIndex.items.Keys, key.publicId.value);
      assert Inserted(st, id, key, context).publicIndex.items.Keys == st.publicIndex.items.Keys + {key.publicId.value};
    }
  }

  lemma InsertKeeps<C>(st: State<C>, id: string, key: BrokerKey, context: Option<C>)
    requires Valid(st) && KeyOf(key) == Ok(id) && !st.entries.Has(id) && !PublicIdTaken(st, key.publicId)
    requires st.entries.Size() < st.maxPending
    ensures Valid(Inserted(st, id, key, context))
  {
    hide MapsValid, Bounded, Indexes, Apart, Keyed, WindowOf, Balanced, PromisesKept, Promises, PublicIdTaken;
    InsertKeepsMaps(st, id, key, context);
    InsertKeepsEntries(st, id, key, context);
    InsertKeepsIndex(st, id, key, context);
    PromisesAfterInsert(st.entries.items, Promises(st.settled), st.nextPromise, id,
        Inserted(st, id, key, context).entries.items[id]);
  }

  lemma CreateKeeps<C>(st: State<C>, key: BrokerKey, context: Option<C>, aborted: bool)
    requires Valid(st)
    ensures Valid(Create(st, key, context, aborted).0)
  {
    if KeyOf(key).Ok? {
      var id := KeyOf(key).value;
      if !st.entries.Has(id) && !PublicIdTaken(st, key.publicId) {
        hide Fail, Inserted, KeyOf, PublicIdTaken;
        if st.entries.Size() < st.maxPending {
          hide Valid;
          InsertKeeps(st, id, key, context);
          FailKeeps(Inserted(st, id, key, context), id, Cancelled);
        } else {
          ForgettingKeeps(st, id);
        }
      }
    }
  }

  lemma ForgettingKeeps<C>(st: State<C>, id: string)
    requires Valid(st)
    ensures Valid(st.(terminal := st.terminal.Remove(id)))
  {
    hide WindowOf, Balanced, PromisesKept, Promises, Keyed, Distinct;
  }

  lemma AwaitKeeps<C>(st: State<C>, key: BrokerKey)
    requires Valid(st)
    ensures Valid(Await(st, key).0)
  {
    hide WindowOf, PromisesKept, Ids, Distinct, KeyedBy;
    if KeyOf(key).Ok? {
      var st' := Await(st, key).0;
      var id := KeyOf(key).value;
      hide KeyOf;
      if st.entries.Has(id) {
        PromisesAfterAwait(st.entries.items, Promises(st.settled), st.nextPromise, id, st'.entries.items[id]);
      } else {
        PromisesAfterRejection(st.entries.items, Promises(st.settled), st.nextPromise);
        assert Promises(st'.settled) == Promises(st.settled) + [st.nextPromise];
      }
    }
  }
}
