/**
 * The broker as the object it is: four insertion-ordered maps updated in place, with the scan over
 * the public index and the two eviction loops. Each method is proved to do what `BrokerSpec` says,
 * and what holds of every run of these operations is the matter of `BrokerRuns`; that the adapters
 * use the shared broker in no other way, that of `ClaudeBroker` and `CodexBroker`.
 */
module DeferredToolBrokers {
  import opened Options
  import opened OrderedMaps
  import opened BrokerKeys
  import opened BrokerSpec
  import opened BrokerRuns

  class DeferredToolBroker<C> {
    const maxPending: nat
    var entries: OrderedMap<string, Entry<C>>
    var terminal: OrderedMap<string, Ending>
    var publicIndex: OrderedMap<string, string>
    var publicTerminal: OrderedMap<string, Ending>
    // the promises handed out so far, and those settled
    var nextPromise: nat
    var settled: seq<Settlement<C>>
    ghost var created: seq<string>
    ghost var ended: seq<(string, Ending)>

    ghost function Model(): State<C>
      reads this
    {
      State(maxPending, entries, terminal, publicIndex, publicTerminal, nextPromise, settled, created, ended)
    }

    ghost predicate Ready()
      reads this
    {
      Valid(Model())
    }

    constructor (maxPending: nat := 64)
      ensures Ready() && Model() == Initial(maxPending)
    {
      this.maxPending := maxPending;
      entries, terminal, publicIndex, publicTerminal := Empty(), Empty(), Empty(), Empty();
      nextPromise, settled, created, ended := 0, [], [], [];
      new;
      InitialIsValid<C>(maxPending);
    }

    method CreatePendingCall(key: BrokerKey, context: Option<C>, aborted: bool) returns (refusal: Option<Refusal>)
      requires Ready()
      modifies this
      ensures Ready()
      ensures (Model(), refusal) == Create(old(Model()), key, context, aborted)
    {
      hide Valid, MapsValid, Fail, Compose, OrderedMap.Put, OrderedMap.Remove, OrderedMap.Valid;
      CreateKeeps(Model(), key, context, aborted);
      var composed := KeyOf(key);
      if composed.Err? {
        return Some(composed.error);
      }
      var id := composed.value;
      if entries.Has(id) {
        return Some(DuplicateCall);
      }
      if key.publicId.Some? && (publicIndex.Has(key.publicId.value) || publicTerminal.Has(key.publicId.value)) {
        return Some(DuplicatePublicId);
      }
      if entries.Size() < maxPending {
        InsertKeeps(Model(), id, key, context);
      }
      terminal := terminal.Remove(id);
      if entries.Size() >= maxPending {
        return Some(AtCapacity);
      }
      entries := entries.Put(id, Entry(key.profile.value, key.provider, key.sessionId, context, []));
      if key.publicId.Some? {
        publicIndex := publicIndex.Put(key.publicId.value, id);
        created := created + [key.publicId.value];
      }
      if aborted {
        FailEntry(id, Cancelled);
      }
      return None;
    }

    method AwaitCall(key: BrokerKey) returns (promise: Result<nat, Refusal>)
      requires Ready()
      modifies this`nextPromise, this`settled, this`entries
      ensures Ready()
      ensures (Model(), promise) == Await(old(Model()), key)
    {
      hide Valid, MapsValid, Compose, OrderedMap.Put, OrderedMap.Valid, Distinct;
      AwaitKeeps(Model(), key);
      var composed := KeyOf(key);
      if composed.Err? {
        return Err(composed.error);
      }
      var id := composed.value;
      promise := Ok(nextPromise);
      if !entries.Has(id) {
        settled := settled + [Settlement(nextPromise, NoSuchCall)];
      } else {
        var entry := entries.items[id];
        entries := entries.Put(id, entry.(waiters := entry.waiters + [nextPromise]));
      }
      nextPromise := nextPromise + 1;
    }

    method ClaimByPublicToolCallId(pid: string, expected: Option<Profile>) returns (claim: Claim<C>)
      requires Ready()
      modifies this
      ensures Ready()
      ensures (Model(), claim) == ClaimByPublicId(old(Model()), pid, expected)
    {
      ClaimKeeps(Model(), pid, expected);
      if !publicIndex.Has(pid) {
        if publicTerminal.Has(pid) {
          return Claim(if publicTerminal.items[pid] == Resolved then OutDuplicate else OutStale, None);
        }
        return Claim(OutUnknown, None);
      }
      var id := publicIndex.items[pid];
      if expected.Some? {
        if !entries.Has(id) || entries.items[id].profile != expected.value {
          return Claim(OutUnknown, None);
        }
      }
      claim := TakeEntry(id);
    }

    method ClaimByKey(key: BrokerKey) returns (claim: Result<Claim<C>, Refusal>)
      requires Ready()
      modifies this
      ensures Ready()
      ensures (Model(), claim) == ClaimCall(old(Model()), key)
    {
      var composed := KeyOf(key);
      if composed.Err? {
        return Err(composed.error);
      }
      var c := TakeEntry(composed.value);
      claim := Ok(c);
    }

    method Resolve(key: BrokerKey, text: string) returns (outcome: Result<Outcome, Refusal>)
      requires Ready()
      modifies this
      ensures Ready()
      ensures (Model(), outcome) == ResolveCall(old(Model()), key, text)
    {
      ResolveKeeps(Model(), key, text);
      var composed := KeyOf(key);
      if composed.Err? {
        return Err(composed.error);
      }
      var id := composed.value;
      if !entries.Has(id) {
        if terminal.Has(id) {
          return Ok(if terminal.items[id] == Resolved then OutDuplicate else OutStale);
        }
        return Ok(OutUnknown);
      }
      EndEntry(id, Resolved, GotResult(text));
      outcome := Ok(OutResolved);
    }

    method Cancel(filter: Filter)
      requires Ready()
      modifies this
      ensures Ready()
      ensures Model() == CancelScope(old(Model()), filter)
    {
      var keys := entries.order;
      for i := 0 to |keys|
        invariant Ready()
        invariant CancelAll(Model(), keys[i..], filter) == CancelScope(old(Model()), filter)
      {
        FailKeeps(Model(), keys[i], Cancelled);
        assert keys[i..][0] == keys[i] && keys[i..][1..] == keys[i + 1..];
        if InScope(keys[i], filter) {
          FailEntry(keys[i], Cancelled);
        }
      }
    }

    method TakeEntry(id: string) returns (claim: Claim<C>)
      requires Ready()
      modifies this
      ensures Ready()
      ensures (Model(), claim) == Take(old(Model()), id)
    {
      TakeKeeps(Model(), id);
      if !entries.Has(id) {
        if terminal.Has(id) {
          return Claim(if terminal.items[id] == Resolved then OutDuplicate else OutStale, None);
        }
        return Claim(OutUnknown, None);
      }
      var context := entries.items[id].context;
      EndEntry(id, Resolved, GotContext(context));
      claim := Claim(OutResolved, context);
    }

    /** The TTL timer and the abort listener both end here. */
    method FailEntry(id: string, how: Ending)
      requires Ready() && how != Resolved
      modifies this
      ensures Ready()
      ensures Model() == Fail(old(Model()), id, how)
    {
      FailKeeps(Model(), id, how);
      if entries.Has(id) {
        EndEntry(id, how, Failed(how));
      }
    }

    method EndEntry(id: string, how: Ending, answer: Answer<C>)
      requires Ready() && entries.Has(id)
      modifies this
      ensures Ready()
      ensures Model() == End(old(Model()), id, how, answer)
    {
      hide Valid, RememberTerminal, Distinct, OrderedMap.Remove, OrderedMap.Valid;
      ValidMaps(Model());
      EndKeeps(Model(), id, how, answer);
      PublicMapsValid(Model());
      var waiters := entries.items[id].waiters;
      entries := entries.Remove(id);
      RememberEnding(id, how);
      label settling:
      for i := 0 to |waiters|
        invariant Model() == old@settling(Model()).(settled := old(settled) + SettleAll(waiters[..i], answer))
      {
        settled := settled + [Settlement(waiters[i], answer)];
        assert SettleAll(waiters[..i + 1], answer) == SettleAll(waiters[..i], answer)
            + [Settlement(waiters[i], answer)];
      }
      assert waiters[..|waiters|] == waiters;
    }

    /** Moves the public id, if there is one, into the bounded terminal memory, and then the key itself. */
    method RememberEnding(id: string, how: Ending)
      requires MapsValid(Model())
      modifies this`publicIndex, this`publicTerminal, this`terminal, this`ended
      ensures Model() == RememberTerminal(old(Model()), id, how)
    {
      hide Newest, Distinct, OrderedMap.Put, OrderedMap.Remove, OrderedMap.Valid, PublicIdOf;
      MovePublicId(id, how);
      terminal := EvictOldest(terminal.Put(id, how), maxPending);
    }

    /** The first public id that stands for this key, in the order of the index. */
    method MovePublicId(id: string, how: Ending)
      requires MapsValid(Model())
      modifies this`publicIndex, this`publicTerminal, this`ended
      ensures publicIndex.Valid() && publicTerminal.Valid()
      ensures var pid := PublicIdOf(old(publicIndex).order, old(publicIndex).items, id);
              && (pid.None? ==>
                    publicIndex == old(publicIndex) && publicTerminal == old(publicTerminal) && ended == old(ended))
              && (pid.Some? ==>
                    && publicIndex == old(publicIndex).Remove(pid.value)
                    && publicTerminal == Newest(old(publicTerminal).Put(pid.value, how), maxPending)
                    && ended == old(ended) + [(pid.value, how)])
    {
      hide Newest, Distinct, Without, LastN, OrderedMap.Put, OrderedMap.Remove;
      var order := publicIndex.order;
      for i := 0 to |order|
        invariant publicIndex == old(publicIndex) && publicTerminal == old(publicTerminal) && ended == old(ended)
        invariant PublicIdOf(order[i..], publicIndex.items, id) == PublicIdOf(order, publicIndex.items, id)
      {
        var pid := order[i];
        assert order[i..] == [pid] + order[i + 1..];
        if publicIndex.items[pid] == id {
          publicIndex := publicIndex.Remove(pid);
          publicTerminal := EvictOldest(publicTerminal.Put(pid, how), maxPending);
          ended := ended + [(pid, how)];
          break;
        }
      }
    }
  }
}
