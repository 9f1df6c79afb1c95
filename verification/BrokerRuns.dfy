/**
 * What holds of the broker over every sequence of operations: which claims resolve and what a late
 * claim is told, that no public id is resolved more often than it was created, what becomes of every
 * promise, what a refused creation leaves behind, and exactly which entries a cancelled scope ends.
 */
module BrokerRuns {
  import opened Options
  import opened Text
  import opened OrderedMaps
  import opened BrokerKeys
  import opened BrokerSpec

  /** One call, one timer that fired, or one abort signal that was raised. */
  datatype Op<C> =
    | DoCreate(key: BrokerKey, context: Option<C>, aborted: bool)
    | DoAwait(key: BrokerKey)
    | DoClaimPublic(pid: string, expected: Option<Profile>)
    | DoClaimCall(key: BrokerKey)
    | DoResolve(key: BrokerKey, text: string)
    | DoExpire(id: string)
    | DoAbort(id: string)
    | DoCancelScope(filter: Filter)

  ghost function Apply<C>(st: State<C>, op: Op<C>): State<C>
    requires Valid(st)
  {
    match op
    case DoCreate(key, context, aborted) => Create(st, key, context, aborted).0
    case DoAwait(key) => Await(st, key).0
    case DoClaimPublic(pid, expected) => ClaimByPublicId(st, pid, expected).0
    case DoClaimCall(key) => ClaimCall(st, key).0
    case DoResolve(key, text) => ResolveCall(st, key, text).0
    case DoExpire(id) => Fail(st, id, Expired)
    case DoAbort(id) => Fail(st, id, Cancelled)
    case DoCancelScope(filter) => CancelScope(st, filter)
  }

  lemma {:induction false} CancelAllKeeps<C>(st: State<C>, ids: seq<string>, filter: Filter)
    requires Valid(st)
    ensures Valid(CancelAll(st, ids, filter))
    decreases |ids|
  {
    if ids != [] {
      FailKeeps(st, ids[0], Cancelled);
      hide Valid, Fail, InScope;
      CancelAllKeeps(if InScope(ids[0], filter) then Fail(st, ids[0], Cancelled) else st, ids[1..], filter);
    }
  }

  lemma ClaimKeeps<C>(st: State<C>, pid: string, expected: Option<Profile>)
    requires Valid(st)
    ensures Valid(ClaimByPublicId(st, pid, expected).0)
  {
    if st.publicIndex.Has(pid) {
      TakeKeeps(st, st.publicIndex.items[pid]);
      hide Valid, Take;
    }
  }

  lemma ResolveKeeps<C>(st: State<C>, key: BrokerKey, text: string)
    requires Valid(st)
    ensures Valid(ResolveCall(st, key, text).0)
  {
    if KeyOf(key).Ok? && st.entries.Has(KeyOf(key).value) {
      EndKeeps(st, KeyOf(key).value, Resolved, GotResult(text));
      hide Valid, End;
    }
  }

  lemma ApplyKeeps<C>(st: State<C>, op: Op<C>)
    requires Valid(st)
    ensures Valid(Apply(st, op))
  {
    hide Create, Await, ClaimByPublicId, ResolveCall, Take, Fail, CancelAll;
    match op
    case DoCreate(key, context, aborted) => CreateKeeps(st, key, context, aborted);
    case DoAwait(key) => AwaitKeeps(st, key);
    case DoClaimPublic(pid, expected) => ClaimKeeps(st, pid, expected);
    case DoClaimCall(key) => if KeyOf(key).Ok? { TakeKeeps(st, KeyOf(key).value); }
    case DoResolve(key, text) => ResolveKeeps(st, key, text);
    case DoExpire(id) => FailKeeps(st, id, Expired);
    case DoAbort(id) => FailKeeps(st, id, Cancelled);
    case DoCancelScope(filter) => CancelAllKeeps(st, st.entries.order, filter);
  }

  ghost function Run<C>(maxPending: nat, ops: seq<Op<C>>): (st: State<C>)
    ensures Valid(st)
    decreases |ops|
  {
    if ops == [] then InitialIsValid<C>(maxPending); Initial(maxPending)
    else
      var before := Run(maxPending, ops[..|ops| - 1]);
      ApplyKeeps(before, ops[|ops| - 1]);
      Apply(before, ops[|ops| - 1])
  }

  // ---- claims ----

  /** A claim resolves exactly when the id is live under an acceptable profile; otherwise nothing changes. */
  lemma ClaimIsExact<C>(st: State<C>, pid: string, expected: Option<Profile>)
    requires Valid(st)
    ensures var (st', claim) := ClaimByPublicId(st, pid, expected);
            var live := pid in st.publicIndex.items;
            var owner := if live then Some(st.entries.items[st.publicIndex.items[pid]]) else None;
            && (claim.outcome == OutResolved <==> live && (expected == None || expected == Some(owner.value.profile)))
            && (claim.outcome == OutResolved ==>
                  && claim.context == owner.value.context
                  && st'.ended == st.ended + [(pid, Resolved)]
                  && st'.entries == st.entries.Remove(st.publicIndex.items[pid])
                  && st'.publicIndex.items == st.publicIndex.items - {pid})
            && (claim.outcome != OutResolved ==> st' == st)
  {
    hide End, Newest, WindowOf, Balanced, PromisesKept, Keyed, Distinct;
    if pid in st.publicIndex.items {
      var id := st.publicIndex.items[pid];
      EndEffect(st, id, Resolved, GotContext(st.entries.items[id].context));
    }
  }

  /** A live id claimed under another profile is answered as unknown, and stays for its owner. */
  lemma ForeignProfileLearnsNothing<C>(st: State<C>, pid: string, profile: Profile)
    requires Valid(st) && pid in st.publicIndex.items
    requires st.entries.items[st.publicIndex.items[pid]].profile != profile
    ensures ClaimByPublicId(st, pid, Some(profile)) == (st, Claim(OutUnknown, None))
  {
    ClaimIsExact(st, pid, Some(profile));
  }

  /** How the most recent `n` endings classify a public id. */
  ghost predicate EndedAs(window: seq<(string, Ending)>, pid: string, how: Ending) {
    exists i :: 0 <= i < |window| && window[i] == (pid, how)
  }

  /**
   * A late claim is classified by how its entry ended, inside the window of the last `maxPending` endings, and by
   * nothing after it.
   */
  lemma LateClaim<C>(maxPending: nat, ops: seq<Op<C>>, pid: string, expected: Option<Profile>)
    requires pid !in Run(maxPending, ops).publicIndex.items
    ensures var st := Run(maxPending, ops);
            var window := LastN(st.ended, st.maxPending);
            && var (st', claim) := ClaimByPublicId(st, pid, expected);
            && st' == st && claim.context == None
            && (claim.outcome == OutDuplicate <==> EndedAs(window, pid, Resolved))
            && (claim.outcome == OutStale <==> EndedAs(window, pid, Expired) || EndedAs(window, pid, Cancelled))
            && (claim.outcome == OutUnknown <==> pid !in Ids(window))
  {
    var st := Run(maxPending, ops);
    hide Run;
    var window := LastN(st.ended, st.maxPending);
    WindowDecides(window, st.publicTerminal, pid);
  }

  lemma WindowDecides(window: seq<(string, Ending)>, memory: OrderedMap<string, Ending>, pid: string)
    requires memory.Valid() && memory.order == Ids(window)
    requires forall i :: 0 <= i < |window| ==> window[i].0 in memory.items && memory.items[window[i].0] == window[i].1
    ensures pid in memory.items <==> pid in Ids(window)
    ensures forall how :: EndedAs(window, pid, how) <==> pid in memory.items && memory.items[pid] == how
  {
    if pid in memory.items {
      var i :| 0 <= i < |memory.order| && memory.order[i] == pid;
      assert window[i] == (pid, memory.items[pid]);
    }
  }

  // ---- counting ----

  /** 1 when this operation is a creation that succeeded with this public id. */
  ghost function Creates<C>(st: State<C>, op: Op<C>, pid: string): nat
    requires Valid(st)
  {
    if op.DoCreate? && op.key.publicId == Some(pid) && Create(st, op.key, op.context, op.aborted).1 == None then 1
        else 0
  }

  ghost predicate PublicIdIs<C>(st: State<C>, id: string, pid: string) {
    pid in st.publicIndex.items && st.publicIndex.items[pid] == id
  }

  /** 1 when this operation answers `resolved` for the entry behind this public id, by whichever door. */
  ghost function Resolves<C>(st: State<C>, op: Op<C>, pid: string): nat
    requires Valid(st)
  {
    match op
    case DoClaimPublic(p, expected) =>
      if p == pid && ClaimByPublicId(st, p, expected).1.outcome == OutResolved then 1 else 0
    case DoClaimCall(key) =>
      if KeyOf(key).Ok? && PublicIdIs(st, KeyOf(key).value, pid) && Take(st,
          KeyOf(key).value).1.outcome == OutResolved then 1 else 0
    case DoResolve(key, text) =>
      if KeyOf(key).Ok? && PublicIdIs(st, KeyOf(key).value, pid) && ResolveCall(st, key, text).1 == Ok(OutResolved)
          then 1 else 0
    case _ => 0
  }

  ghost function Creations<C>(maxPending: nat, ops: seq<Op<C>>, pid: string): nat
    decreases |ops|
  {
    if ops == [] then 0
    else Creations(maxPending, ops[..|ops| - 1], pid) + Creates(Run(maxPending, ops[..|ops| - 1]), ops[|ops| - 1], pid)
  }

  ghost function Resolutions<C>(maxPending: nat, ops: seq<Op<C>>, pid: string): nat
    decreases |ops|
  {
    if ops == [] then 0
    else
      var front := ops[..|ops| - 1];
      Resolutions(maxPending, front, pid) + Resolves(Run(maxPending, front), ops[|ops| - 1], pid)
  }

  /** How often this id ended, and how often as resolved. */
  ghost function Endings(ended: seq<(string, Ending)>, pid: string, resolvedOnly: bool): nat
  {
    if ended == [] then 0
    else
      var last := ended[|ended| - 1];
      Endings(ended[..|ended| - 1], pid, resolvedOnly)
          + (if last.0 == pid && (resolvedOnly ==> last.1 == Resolved) then 1 else 0)
  }

  lemma EndingsSnoc(ended: seq<(string, Ending)>, last: (string, Ending), pid: string, resolvedOnly: bool)
    ensures Endings(ended + [last], pid, resolvedOnly)
         == Endings(ended, pid, resolvedOnly)
             + (if last.0 == pid && (resolvedOnly ==> last.1 == Resolved) then 1 else 0)
  {
    assert (ended + [last])[..|ended|] == ended;
  }

  lemma {:induction false} EndingsBound(ended: seq<(string, Ending)>, pid: string)
    ensures Endings(ended, pid, true) <= Endings(ended, pid, false) == multiset(Ids(ended))[pid]
  {
    if ended != [] {
      var n := |ended| - 1;
      EndingsBound(ended[..n], pid);
      assert Ids(ended) == Ids(ended[..n]) + [ended[n].0];
    }
  }

  lemma EndCounts<C>(st: State<C>, id: string, how: Ending, answer: Answer<C>, pid: string)
    requires Valid(st) && st.entries.Has(id)
    ensures var st' := End(st, id, how, answer);
            && st'.created == st.created
            && Endings(st'.ended, pid, true) == Endings(st.ended, pid, true) + (if how == Resolved
                && PublicIdIs(st, id, pid) then 1 else 0)
  {
    EndEffect(st, id, how, answer);
    var found := PublicIdOf(st.publicIndex.order, st.publicIndex.items, id);
    hide End, Newest, Endings, MapsValid, WindowOf, Balanced, PromisesKept, Keyed, PublicIdOf;
    if found.Some? {
      EndingsSnoc(st.ended, (found.value, how), pid, true);
    }
  }

  lemma FailCounts<C>(st: State<C>, id: string, how: Ending, pid: string)
    requires Valid(st) && how != Resolved
    ensures Fail(st, id, how).created == st.created
    ensures Endings(Fail(st, id, how).ended, pid, true) == Endings(st.ended, pid, true)
  {
    if st.entries.Has(id) {
      EndCounts(st, id, how, Failed(how), pid);
    }
  }

  lemma {:induction false} CancelCounts<C>(st: State<C>, ids: seq<string>, filter: Filter, pid: string)
    requires Valid(st)
    ensures CancelAll(st, ids, filter).created == st.created
    ensures Endings(CancelAll(st, ids, filter).ended, pid, true) == Endings(st.ended, pid, true)
    decreases |ids|
  {
    if ids != [] {
      FailCounts(st, ids[0], Cancelled, pid);
      FailKeeps(st, ids[0], Cancelled);
      hide Valid, Fail, InScope;
      CancelCounts(if InScope(ids[0], filter) then Fail(st, ids[0], Cancelled) else st, ids[1..], filter, pid);
    }
  }

  lemma CreateCounts<C>(st: State<C>, key: BrokerKey, context: Option<C>, aborted: bool, pid: string)
    requires Valid(st)
    ensures var (st', refusal) := Create(st, key, context, aborted);
            && st'.created == (if refusal == None
                && key.publicId.Some? then st.created + [key.publicId.value] else st.created)
            && Endings(st'.ended, pid, true) == Endings(st.ended, pid, true)
  {
    var (st', refusal) := Create(st, key, context, aborted);
    if refusal == None {
      var id := KeyOf(key).value;
      InsertKeeps(st, id, key, context);
      FailCounts(Inserted(st, id, key, context), id, Cancelled, pid);
      hide Fail, Valid, Endings;
    }
  }

  lemma TakeCounts<C>(st: State<C>, id: string, pid: string)
    requires Valid(st)
    ensures Take(st, id).0.created == st.created
    ensures Endings(Take(st, id).0.ended, pid, true)
         == Endings(st.ended, pid, true)
             + (if PublicIdIs(st, id, pid) && Take(st, id).1.outcome == OutResolved then 1 else 0)
  {
    if st.entries.Has(id) {
      EndCounts(st, id, Resolved, GotContext(st.entries.items[id].context), pid);
    }
  }

  lemma IndexedOnce<C>(st: State<C>, p: string, pid: string)
    requires Indexes(st.publicIndex.items, st.entries.items) && p in st.publicIndex.items
    ensures PublicIdIs(st, st.publicIndex.items[p], pid) <==> p == pid
  {
  }

  lemma ClaimIsTakeOrNothing<C>(st: State<C>, p: string, expected: Option<Profile>)
    requires Valid(st)
    ensures var result := ClaimByPublicId(st, p, expected);
            || (result.0 == st && result.1.outcome != OutResolved)
            || (p in st.publicIndex.items && result == Take(st, st.publicIndex.items[p]))
  {
    hide Take, Valid;
  }

  lemma ClaimCounts<C>(st: State<C>, p: string, expected: Option<Profile>, pid: string)
    requires Valid(st)
    ensures ClaimByPublicId(st, p, expected).0.created == st.created
    ensures Endings(ClaimByPublicId(st, p, expected).0.ended, pid, true)
         == Endings(st.ended, pid, true) + Resolves(st, DoClaimPublic(p, expected), pid)
  {
    ClaimIsTakeOrNothing(st, p, expected);
    assert Indexes(st.publicIndex.items, st.entries.items);
    hide ClaimByPublicId, Take, Endings, Valid, PublicIdIs, MapsValid, Indexes;
    if p in st.publicIndex.items {
      IndexedOnce(st, p, pid);
      TakeCounts(st, st.publicIndex.items[p], pid);
    }
  }

  lemma ResolveCounts<C>(st: State<C>, key: BrokerKey, text: string, pid: string)
    requires Valid(st)
    ensures ResolveCall(st, key, text).0.created == st.created
    ensures Endings(ResolveCall(st, key, text).0.ended, pid, true)
         == Endings(st.ended, pid, true) + Resolves(st, DoResolve(key, text), pid)
  {
    hide Endings, End, PublicIdIs;
    if KeyOf(key).Ok? && st.entries.Has(KeyOf(key).value) {
      EndCounts(st, KeyOf(key).value, Resolved, GotResult(text), pid);
      hide Valid;
    } else {
      hide Valid;
    }
  }

  lemma ApplyCounts<C>(st: State<C>, op: Op<C>, pid: string)
    requires Valid(st)
    ensures multiset(Apply(st, op).created)[pid] == multiset(st.created)[pid] + Creates(st, op, pid)
    ensures Endings(Apply(st, op).ended, pid, true) == Endings(st.ended, pid, true) + Resolves(st, op, pid)
  {
    hide Create, ClaimByPublicId, ResolveCall, Take, Fail, CancelAll, Endings, Valid;
    match op
    case DoCreate(key, context, aborted) => CreateCounts(st, key, context, aborted, pid);
    case DoAwait(key) =>
    case DoClaimPublic(p, expected) => ClaimCounts(st, p, expected, pid);
    case DoClaimCall(key) => if KeyOf(key).Ok? { TakeCounts(st, KeyOf(key).value, pid); }
    case DoResolve(key, text) => ResolveCounts(st, key, text, pid);
    case DoExpire(id) => FailCounts(st, id, Expired, pid);
    case DoAbort(id) => FailCounts(st, id, Cancelled, pid);
    case DoCancelScope(filter) => CancelCounts(st, st.entries.order, filter, pid);
  }

  lemma {:induction false} TapesCount<C>(maxPending: nat, ops: seq<Op<C>>, pid: string)
    ensures multiset(Run(maxPending, ops).created)[pid] == Creations(maxPending, ops, pid)
    ensures Endings(Run(maxPending, ops).ended, pid, true) == Resolutions(maxPending, ops, pid)
    decreases |ops|
  {
    hide Valid, Apply, Creates, Resolves;
    if ops != [] {
      TapesCount(maxPending, ops[..|ops| - 1], pid);
      ApplyCounts(Run(maxPending, ops[..|ops| - 1]), ops[|ops| - 1], pid);
    }
  }

  /** Over every run: no public id is answered `resolved` more often than it was created. */
  lemma ResolvedAtMostCreated<C>(maxPending: nat, ops: seq<Op<C>>, pid: string)
    ensures Resolutions(maxPending, ops, pid) <= Creations(maxPending, ops, pid)
  {
    TapesCount(maxPending, ops, pid);
    var st := Run(maxPending, ops);
    EndingsBound(st.ended, pid);
    hide Run, Creations, Resolutions, Endings, MapsValid, Indexes, WindowOf, PromisesKept, Keyed;
  }

  // ---- promises ----

  /** Over every run: a promise handed out is settled once, or still held by exactly one live entry, never both. */
  lemma PromiseFate<C>(maxPending: nat, ops: seq<Op<C>>, w: nat)
    requires w < Run(maxPending, ops).nextPromise
    ensures var st := Run(maxPending, ops);
            && (forall i, j :: 0 <= i < j < |st.settled| && st.settled[i].promise == w ==> st.settled[j].promise != w)
            && (Held(st.entries.items, w) <==> w !in Promises(st.settled))
            && (forall a, b | a in st.entries.items && b in st.entries.items ::
                  w in st.entries.items[a].waiters && w in st.entries.items[b].waiters ==> a == b)
  {
    var st := Run(maxPending, ops);
    hide Run, MapsValid, Indexes, WindowOf, Keyed, Balanced;
    var done := Promises(st.settled);
    forall i, j | 0 <= i < j < |st.settled| && st.settled[i].promise == w ensures st.settled[j].promise != w {
      assert done[i] != done[j];
    }
  }

  /**
   * When an entry ends every one of its waiters, none of them settled before, gets that one answer; no other promise
   * is touched.
   */
  lemma EndingSettlesItsWaiters<C>(st: State<C>, id: string, how: Ending, answer: Answer<C>, w: nat)
    requires Valid(st) && st.entries.Has(id)
    ensures var waiting := w in st.entries.items[id].waiters;
            var st' := End(st, id, how, answer);
            && (waiting ==> w !in Promises(st.settled) && Settlement(w, answer) in st'.settled)
            && (!waiting ==> (w in Promises(st'.settled) <==> w in Promises(st.settled)))
  {
    var waiters := st.entries.items[id].waiters;
    EndEffect(st, id, how, answer);
    var st' := End(st, id, how, answer);
    assert st'.settled == st.settled + SettleAll(waiters, answer);
    hide End, MapsValid, Indexes, WindowOf, Keyed, Balanced, Promises;
    if w in waiters {
      assert AllOpen(waiters, Promises(st.settled), st.nextPromise);
      var i :| 0 <= i < |waiters| && waiters[i] == w;
      assert SettleAll(waiters, answer)[i] == Settlement(w, answer);
    }
  }

  /**
   * A claim or a result for a call that is not live changes nothing, and is told how a call under the same key ended,
   * if that is still remembered.
   */
  lemma LateForItsKey<C>(st: State<C>, key: BrokerKey, text: string)
    requires MapsValid(st) && key.profile.Some? && key.sessionId != "" && key.toolCallId != ""
    requires Compose(key.profile.value, key.provider, key.sessionId, TurnText(key.turnId), key.toolCallId)
        !in st.entries.items
    ensures var id := Compose(key.profile.value, key.provider, key.sessionId, TurnText(key.turnId), key.toolCallId);
            var (claimed, claim) := ClaimCall(st, key);
            var (resolved, outcome) := ResolveCall(st, key, text);
            && claimed == st && resolved == st
            && claim.Ok? && claim.value.context == None && outcome == Ok(claim.value.outcome)
            && (claim.value.outcome == OutDuplicate <==> id in st.terminal.items && st.terminal.items[id].Resolved?)
            && (claim.value.outcome == OutStale <==> id in st.terminal.items && !st.terminal.items[id].Resolved?)
            && (claim.value.outcome == OutUnknown <==> id !in st.terminal.items)
  {
    hide Compose, MapsValid, End;
  }

  /** A wait for a live call joins that call's waiters; any other is rejected at once; no other promise is touched. */
  lemma AwaitJoinsTheLiveCall<C>(st: State<C>, key: BrokerKey)
    requires Valid(st) && key.profile.Some? && key.sessionId != "" && key.toolCallId != ""
    ensures var id := Compose(key.profile.value, key.provider, key.sessionId, TurnText(key.turnId), key.toolCallId);
            var (st', answer) := Await(st, key);
            var w := st.nextPromise;
            && answer == Ok(w) && w !in Promises(st.settled) && st'.nextPromise == w + 1
            && (id in st.entries.items ==>
                  && st'.entries.items == st.entries.items[id :=
                       st.entries.items[id].(waiters := st.entries.items[id].waiters + [w])]
                  && st'.settled == st.settled)
            && (id !in st.entries.items ==>
                  st'.entries == st.entries && st'.settled == st.settled + [Settlement(w, NoSuchCall)])
  {
    hide MapsValid, Indexes, WindowOf, Keyed, Balanced, Promises, Compose;
  }

  /** What the promises of an entry are told by the operation that ends it. */
  function AnswerBy<C>(op: Op<C>, entry: Entry<C>): Answer<C> {
    match op
    case DoClaimPublic(_, _) => GotContext(entry.context)
    case DoClaimCall(_) => GotContext(entry.context)
    case DoResolve(_, text) => GotResult(text)
    case DoExpire(_) => Failed(Expired)
    case _ => Failed(Cancelled)
  }

  /** The operation ends entry `id`. */
  predicate Ends<C>(st: State<C>, op: Op<C>, id: string) {
    match op
    case DoClaimPublic(pid, expected) =>
      && pid in st.publicIndex.items && st.publicIndex.items[pid] == id && id in st.entries.items
      && (expected == None || expected == Some(st.entries.items[id].profile))
    case DoClaimCall(key) => KeyOf(key) == Ok(id)
    case DoResolve(key, _) => KeyOf(key) == Ok(id)
    case DoExpire(ended) => ended == id
    case DoAbort(ended) => ended == id
    case DoCancelScope(filter) => InScope(id, filter)
    case _ => false
  }

  /** Promise `w` is still waiting for entry `id`, or has been told `answer`. */
  ghost predicate WaitsOrKnows<C>(st: State<C>, id: string, w: nat, answer: Answer<C>) {
    if id in st.entries.items then w in st.entries.items[id].waiters else Settlement(w, answer) in st.settled
  }

  lemma EndedAnswers<C>(st: State<C>, ended: string, how: Ending, answer: Answer<C>, id: string, w: nat)
    requires Valid(st) && st.entries.Has(ended) && id in st.entries.items && w in st.entries.items[id].waiters
    ensures WaitsOrKnows(End(st, ended, how, answer), id, w, answer)
    ensures st.settled <= End(st, ended, how, answer).settled
    ensures id in End(st, ended, how, answer).entries.items <==> id != ended
  {
    EndEffect(st, ended, how, answer);
    if id == ended {
      EndingSettlesItsWaiters(st, ended, how, answer, w);
    }
    hide MapsValid, Indexes, WindowOf, Keyed, Balanced, PromisesKept, Promises, Newest;
  }

  lemma FailedAnswers<C>(st: State<C>, ended: string, how: Ending, id: string, w: nat)
    requires Valid(st) && id in st.entries.items && w in st.entries.items[id].waiters
    ensures WaitsOrKnows(Fail(st, ended, how), id, w, Failed(how)) && st.settled <= Fail(st, ended, how).settled
    ensures id in Fail(st, ended, how).entries.items <==> id != ended
  {
    hide Valid, End;
    if st.entries.Has(ended) {
      EndedAnswers(st, ended, how, Failed(how), id, w);
    }
  }

  lemma FailedKeepsSettled<C>(st: State<C>, ended: string, how: Ending)
    requires Valid(st)
    ensures st.settled <= Fail(st, ended, how).settled
  {
    hide MapsValid, Indexes, WindowOf, Keyed, Balanced, PromisesKept, Newest;
  }

  lemma {:induction false} CancelKeepsSettled<C>(st: State<C>, ids: seq<string>, filter: Filter)
    requires Valid(st)
    ensures st.settled <= CancelAll(st, ids, filter).settled
    decreases |ids|
  {
    if ids != [] {
      FailKeeps(st, ids[0], Cancelled);
      FailedKeepsSettled(st, ids[0], Cancelled);
      hide Valid, Fail, InScope;
      CancelKeepsSettled(if InScope(ids[0], filter) then Fail(st, ids[0], Cancelled) else st, ids[1..], filter);
    }
  }

  lemma {:induction false} CancelledAnswers<C>(st: State<C>, ids: seq<string>, filter: Filter, id: string, w: nat)
    requires Valid(st) && id in st.entries.items && w in st.entries.items[id].waiters
    ensures WaitsOrKnows(CancelAll(st, ids, filter), id, w, Failed(Cancelled))
    ensures id in CancelAll(st, ids, filter).entries.items <==> !(id in ids && InScope(id, filter))
    decreases |ids|
  {
    if ids != [] {
      var st1 := if InScope(ids[0], filter) then Fail(st, ids[0], Cancelled) else st;
      FailKeeps(st, ids[0], Cancelled);
      FailedAnswers(st, ids[0], Cancelled, id, w);
      CancelAllEffect(st1, ids[1..], filter);
      CancelKeepsSettled(st1, ids[1..], filter);
      hide Valid, Fail, InScope;
      if id in st1.entries.items {
        CancelledAnswers(st1, ids[1..], filter, id, w);
      }
    }
  }

  lemma CreatedAnswers<C>(st: State<C>, key: BrokerKey, context: Option<C>, aborted: bool, id: string, w: nat)
    requires Valid(st) && id in st.entries.items && w in st.entries.items[id].waiters
    ensures var st' := Create(st, key, context, aborted).0;
            id in st'.entries.items && w in st'.entries.items[id].waiters
  {
    CreateEffect(st, key, context);
    CreateKeeps(st, key, context, false);
    var (created, refusal) := Create(st, key, context, false);
    AbortedCreationOf(st, key, context);
    if aborted && refusal == None {
      FailedAnswers(created, KeyOf(key).value, Cancelled, id, w);
    }
    hide Valid, Create, Fail, KeyOf;
  }

  lemma AbortedCreationOf<C>(st: State<C>, key: BrokerKey, context: Option<C>)
    requires Valid(st)
    ensures var (created, refusal) := Create(st, key, context, false);
            && MapsValid(created)
            && Create(st, key, context, true).0
                 == (if refusal == None then Fail(created, KeyOf(key).value, Cancelled) else created)
  {
    CreateKeeps(st, key, context, false);
    ValidMaps(Create(st, key, context, false).0);
    hide Valid;
    AbortedCreation(st, key, context);
  }

  lemma TakenAnswers<C>(st: State<C>, ended: string, id: string, w: nat)
    requires Valid(st) && id in st.entries.items && w in st.entries.items[id].waiters
    ensures WaitsOrKnows(Take(st, ended).0, id, w, GotContext(st.entries.items[id].context))
    ensures id in Take(st, ended).0.entries.items <==> id != ended
  {
    hide Valid, End;
    if st.entries.Has(ended) {
      EndedAnswers(st, ended, Resolved, GotContext(st.entries.items[ended].context), id, w);
    }
  }

  lemma ResolvedAnswers<C>(st: State<C>, key: BrokerKey, text: string, id: string, w: nat)
    requires Valid(st) && id in st.entries.items && w in st.entries.items[id].waiters
    ensures WaitsOrKnows(ResolveCall(st, key, text).0, id, w, GotResult(text))
    ensures id in ResolveCall(st, key, text).0.entries.items <==> KeyOf(key) != Ok(id)
  {
    hide Valid, End, KeyOf;
    if KeyOf(key).Ok? && st.entries.Has(KeyOf(key).value) {
      EndedAnswers(st, KeyOf(key).value, Resolved, GotResult(text), id, w);
    }
  }

  lemma AwaitedAnswers<C>(st: State<C>, key: BrokerKey, id: string, w: nat)
    requires id in st.entries.items && w in st.entries.items[id].waiters
    ensures var st' := Await(st, key).0; id in st'.entries.items && w in st'.entries.items[id].waiters
  {
    hide KeyOf;
  }

  /**
   * Over every run: an operation ends exactly the entries it names. A promise that waits is told nothing as long as
   * its entry lives, and by whatever ends the entry it is told just that: the result that resolved it, the context
   * that was claimed, or how it failed.
   */
  lemma WaitersAreToldTheCause<C>(maxPending: nat, ops: seq<Op<C>>, op: Op<C>, id: string, w: nat)
    requires var st := Run(maxPending, ops); id in st.entries.items && w in st.entries.items[id].waiters
    ensures var st := Run(maxPending, ops);
            var st' := Apply(st, op);
            && w !in Promises(st.settled)
            && (id in st'.entries.items <==> !Ends(st, op, id))
            && (id in st'.entries.items ==> w in st'.entries.items[id].waiters && w !in Promises(st'.settled))
            && (id !in st'.entries.items ==> Settlement(w, AnswerBy(op, st.entries.items[id])) in st'.settled)
  {
    var st := Run(maxPending, ops);
    ApplyKeeps(st, op);
    WaitingIsOpen(st, id, w);
    EntriesListed(st, id);
    hide Run, Valid, Create, Await, ClaimByPublicId, ResolveCall, Take, Fail, CancelAll, Promises;
    match op {
      case DoCreate(key, context, aborted) => CreatedAnswers(st, key, context, aborted, id, w);
      case DoAwait(key) => AwaitedAnswers(st, key, id, w);
      case DoClaimPublic(pid, expected) => ClaimedAnswers(st, pid, expected, id, w);
      case DoClaimCall(key) => if KeyOf(key).Ok? { TakenAnswers(st, KeyOf(key).value, id, w); }
      case DoResolve(key, text) => ResolvedAnswers(st, key, text, id, w);
      case DoExpire(ended) => FailedAnswers(st, ended, Expired, id, w);
      case DoAbort(ended) => FailedAnswers(st, ended, Cancelled, id, w);
      case DoCancelScope(filter) => CancelledAnswers(st, st.entries.order, filter, id, w);
    }
    if id in Apply(st, op).entries.items {
      WaitingIsOpen(Apply(st, op), id, w);
    }
  }

  lemma EntriesListed<C>(st: State<C>, id: string)
    requires Valid(st)
    ensures id in st.entries.items <==> id in st.entries.order
  {
    hide Indexes, WindowOf, Keyed, Balanced, PromisesKept;
  }

  lemma WaitingIsOpen<C>(st: State<C>, id: string, w: nat)
    requires Valid(st) && id in st.entries.items && w in st.entries.items[id].waiters
    ensures w !in Promises(st.settled)
  {
    hide MapsValid, Indexes, WindowOf, Keyed, Balanced, Promises;
    assert AllOpen(st.entries.items[id].waiters, Promises(st.settled), st.nextPromise);
  }

  lemma IndexedIsLive<C>(st: State<C>, pid: string)
    requires Valid(st) && pid in st.publicIndex.items
    ensures st.publicIndex.items[pid] in st.entries.items && MapsValid(st)
  {
    hide WindowOf, Keyed, Balanced, PromisesKept, Bounded;
  }

  lemma ClaimedAnswers<C>(st: State<C>, pid: string, expected: Option<Profile>, id: string, w: nat)
    requires Valid(st) && id in st.entries.items && w in st.entries.items[id].waiters
    ensures WaitsOrKnows(ClaimByPublicId(st, pid, expected).0, id, w, GotContext(st.entries.items[id].context))
    ensures id in ClaimByPublicId(st, pid, expected).0.entries.items <==> !Ends(st, DoClaimPublic(pid, expected), id)
  {
    hide Valid, Take, WaitsOrKnows, ClaimByPublicId;
    StillWaits(st, id, w, GotContext(st.entries.items[id].context));
    if st.publicIndex.Has(pid) {
      IndexedIsLive(st, pid);
      TakenAnswers(st, st.publicIndex.items[pid], id, w);
      ClaimTakes(st, pid, expected);
    } else {
      UnindexedClaims(st, pid, expected);
    }
  }

  lemma StillWaits<C>(st: State<C>, id: string, w: nat, answer: Answer<C>)
    requires id in st.entries.items && w in st.entries.items[id].waiters
    ensures WaitsOrKnows(st, id, w, answer)
  {
  }

  lemma UnindexedClaims<C>(st: State<C>, pid: string, expected: Option<Profile>)
    requires Valid(st) && !st.publicIndex.Has(pid)
    ensures MapsValid(st) && ClaimByPublicId(st, pid, expected).0 == st
  {
    ValidMaps(st);
    hide Valid;
  }

  lemma ClaimTakes<C>(st: State<C>, pid: string, expected: Option<Profile>)
    requires MapsValid(st) && st.publicIndex.Has(pid) && st.publicIndex.items[pid] in st.entries.items
    ensures var id := st.publicIndex.items[pid];
            ClaimByPublicId(st, pid, expected).0
              == if expected == None || expected == Some(st.entries.items[id].profile) then Take(st, id).0 else st
  {
    hide MapsValid, Take;
  }

  // ---- refusals and scopes ----

  /**
   * A creation is refused exactly for these reasons, the first that applies: no profile, no session or call, a live
   * call under the same key, a public id that is live or remembered, or no room. Nothing else refuses it.
   */
  lemma CreationIsRefusedExactly<C>(st: State<C>, key: BrokerKey, context: Option<C>, aborted: bool)
    requires Valid(st)
    ensures var refusal := Create(st, key, context, aborted).1;
            var named := key.profile.Some? && key.sessionId != "" && key.toolCallId != "";
            var live := named && Compose(key.profile.value, key.provider, key.sessionId, TurnText(key.turnId),
                                         key.toolCallId) in st.entries.items;
            var taken := key.publicId.Some? && (key.publicId.value in st.publicIndex.items
                                                || key.publicId.value in st.publicTerminal.items);
            var full := |st.entries.items| >= st.maxPending;
            && (refusal == Some(NoProfile) <==> key.profile.None?)
            && (refusal == Some(IncompleteKey) <==> key.profile.Some? && !named)
            && (refusal == Some(DuplicateCall) <==> live)
            && (refusal == Some(DuplicatePublicId) <==> named && !live && taken)
            && (refusal == Some(AtCapacity) <==> named && !live && !taken && full)
            && (refusal == None <==> named && !live && !taken && !full)
  {
    ValidMaps(st);
    SizeIsCount(st.entries);
    hide Valid, MapsValid, Compose, Fail;
  }

  /** Creating under a signal that is already aborted is creating, then cancelling. */
  lemma AbortedCreation<C>(st: State<C>, key: BrokerKey, context: Option<C>)
    requires MapsValid(st) && MapsValid(Create(st, key, context, false).0)
    ensures var (created, refusal) := Create(st, key, context, false);
            && Create(st, key, context, true).1 == refusal
            && (refusal == None ==> KeyOf(key).Ok?)
            && Create(st, key, context, true).0
                 == (if refusal == None then Fail(created, KeyOf(key).value, Cancelled) else created)
  {
    hide Fail, Compose;
  }

  /** What a creation that is not aborted adds, and that a refused one adds nothing. */
  lemma CreateEffect<C>(st: State<C>, key: BrokerKey, context: Option<C>)
    requires Valid(st)
    ensures var (st', refusal) := Create(st, key, context, false);
            && st'.maxPending == st.maxPending
            && (refusal.Some? ==> st'.entries == st.entries && st'.publicIndex == st.publicIndex)
            && (refusal == None ==>
                  && key.profile.Some? && KeyOf(key).Ok? && KeyOf(key).value !in st.entries.items
                  && st'.entries.items == st.entries.items[KeyOf(key).value :=
                       Entry(key.profile.value, key.provider, key.sessionId, context, [])]
                  && (key.publicId == None ==> st'.publicIndex == st.publicIndex)
                  && (key.publicId.Some? ==>
                        && key.publicId.value !in st.publicIndex.items
                        && st'.publicIndex.items == st.publicIndex.items[key.publicId.value := KeyOf(key).value]))
  {
    ValidMaps(st);
    hide Valid, MapsValid, Indexes, Compose, Newest;
  }

  /** A refused creation leaves everything alone, except that at capacity it forgets how an equal key ended before. */
  lemma RefusedCreation<C>(st: State<C>, key: BrokerKey, context: Option<C>, aborted: bool)
    requires Valid(st) && Create(st, key, context, aborted).1.Some?
    ensures var (st', refusal) := Create(st, key, context, aborted);
            && st'.(terminal := st.terminal) == st
            && (st' == st <==> !(refusal == Some(AtCapacity) && KeyOf(key).value in st.terminal.items))
  {
    hide WindowOf, Balanced, PromisesKept, Keyed, Compose, Fail;
    if KeyOf(key).Ok? && KeyOf(key).value !in st.terminal.items {
      WithoutAbsent(st.terminal.order, KeyOf(key).value);
      assert st.terminal.Remove(KeyOf(key).value).items == st.terminal.items;
    }
  }

  /** So a repeated claim on that key turns from duplicate to unknown, although the creation in between was refused. */
  lemma RefusalForgets(st: State<nat>, key: BrokerKey, context: Option<nat>)
    requires Valid(st) && KeyOf(key).Ok? && !PublicIdTaken(st, key.publicId)
    requires st.entries.Size() == st.maxPending && KeyOf(key).value in st.terminal.items
    ensures var (st', refusal) := Create(st, key, context, false);
            && refusal == Some(AtCapacity)
            && ClaimCall(st, key).1.value.outcome in {OutDuplicate, OutStale}
            && ClaimCall(st', key).1 == Ok(Claim(OutUnknown, None))
  {
    assert Apart(st.entries.items, st.terminal.items);
    hide Valid, KeyOf;
  }

  ghost predicate Matches<C>(entry: Entry<C>, filter: Filter) {
    && (filter.provider.Some? ==> entry.provider == filter.provider.value)
    && (filter.sessionId.Some? ==> entry.sessionId == filter.sessionId.value)
  }

  /** Of the entries the filter's provider names, none whose session could be misread. */
  ghost predicate Readable<C>(entry: Entry<C>, filter: Filter) {
    || filter.sessionId == None
    || (filter.provider.Some? && filter.provider.value != entry.provider)
    || '|' !in entry.sessionId
  }

  /** The scope read back from a key agrees with what the entry stores, where its session holds no separator. */
  lemma ScopeMatches<C>(st: State<C>, id: string, filter: Filter)
    requires Valid(st) && id in st.entries.items
    requires Readable(st.entries.items[id], filter)
    ensures InScope(id, filter) <==> Matches(st.entries.items[id], filter)
  {
    var entry := st.entries.items[id];
    assert KeyedBy(id, entry.profile, entry.provider, entry.sessionId);
    var turn, tool :| id == Compose(entry.profile, entry.provider, entry.sessionId, turn, tool);
    ScopeIsRecovered(entry.profile, entry.provider, entry.sessionId, turn, tool);
    NamesHoldNoSeparator(entry.profile, entry.provider);
    hide Compose, SplitScope, MapsValid, Indexes, WindowOf, PromisesKept, Balanced, ProviderText;
  }

  /** Cancelling a list of keys ends those in scope and leaves every other entry as it is. */
  lemma {:induction false} CancelAllEffect<C>(st: State<C>, ids: seq<string>, filter: Filter)
    requires Valid(st)
    ensures var st' := CancelAll(st, ids, filter);
            && Valid(st')
            && (forall id :: id in st'.entries.items <==> id in st.entries.items && !(id in ids && InScope(id, filter)))
            && (forall id :: id in st'.entries.items ==> st'.entries.items[id] == st.entries.items[id])
            && (forall p :: p in st'.publicIndex.items <==>
                  p in st.publicIndex.items && st.publicIndex.items[p] in st'.entries.items)
            && (forall p :: p in st'.publicIndex.items ==> st'.publicIndex.items[p] == st.publicIndex.items[p])
            && st'.maxPending == st.maxPending
    decreases |ids|
  {
    if ids != [] {
      var st1 := if InScope(ids[0], filter) then Fail(st, ids[0], Cancelled) else st;
      FailKeeps(st, ids[0], Cancelled);
      FailEffect(st, ids[0], Cancelled);
      assert Indexes(st.publicIndex.items, st.entries.items);
      hide Valid, Fail, InScope;
      CancelAllEffect(st1, ids[1..], filter);
      assert forall x :: x in ids <==> x == ids[0] || x in ids[1..];
    }
  }

  lemma FailEffect<C>(st: State<C>, id: string, how: Ending)
    requires Valid(st)
    ensures var st' := Fail(st, id, how);
            && st'.maxPending == st.maxPending
            && st'.entries.items == st.entries.items - {id}
            && (forall p :: p in st'.publicIndex.items <==> p in st.publicIndex.items && st.publicIndex.items[p] != id)
            && (forall p :: p in st'.publicIndex.items ==> st'.publicIndex.items[p] == st.publicIndex.items[p])
  {
    if st.entries.Has(id) {
      EndEffect(st, id, how, Failed(how));
      hide End, Newest, MapsValid, WindowOf, PromisesKept, Balanced, Keyed, Promises;
    }
  }

  /**
   * `cancelScope` ends exactly the entries whose stored provider and session match the filter, and keeps all others
   * untouched.
   */
  lemma CancelScopeIsExact<C>(st: State<C>, filter: Filter)
    requires Valid(st)
    requires forall id :: id in st.entries.items ==> Readable(st.entries.items[id], filter)
    ensures var st' := CancelScope(st, filter);
            && Valid(st') && st'.maxPending == st.maxPending
            && (forall id :: id in st'.entries.items <==>
                id in st.entries.items && !Matches(st.entries.items[id], filter))
            && (forall id :: id in st'.entries.items ==> st'.entries.items[id] == st.entries.items[id])
            && (forall p :: p in st'.publicIndex.items <==>
                  p in st.publicIndex.items && st.publicIndex.items[p] in st'.entries.items)
            && (forall p :: p in st'.publicIndex.items ==> st'.publicIndex.items[p] == st.publicIndex.items[p])
  {
    CancelAllEffect(st, st.entries.order, filter);
    assert forall id :: id in st.entries.items <==> id in st.entries.order;
    forall id | id in st.entries.items
      ensures InScope(id, filter) <==> Matches(st.entries.items[id], filter)
    {
      ScopeMatches(st, id, filter);
    }
    hide Valid, InScope, Matches, CancelAll, Readable;
  }
}
