/**
 * What every ending does to the broker's entries and public ids, whoever holds them: some go, and the
 * rest stay exactly as they were. Claims, deadlines, aborts and cancelled scopes all have this one
 * shape, so an adapter that shares the broker needs to know no more about the endings of others.
 */
module BrokerShrinking {
  import opened Options
  import opened BrokerKeys
  import opened BrokerSpec
  import opened BrokerRuns

  /** `b` is what is left of the broker after some entries ended. */
  ghost predicate Shrunk<C>(a: State<C>, b: State<C>) {
    && Valid(b)
    && (forall id :: id in b.entries.items ==> id in a.entries.items && b.entries.items[id] == a.entries.items[id])
    && (forall p :: p in b.publicIndex.items <==> p in a.publicIndex.items && a.publicIndex.items[p] in b.entries.items)
    && (forall p :: p in b.publicIndex.items ==> b.publicIndex.items[p] == a.publicIndex.items[p])
  }

  lemma FailShrinks<C>(st: State<C>, id: string, how: Ending)
    requires Valid(st)
    ensures Shrunk(st, Fail(st, id, how))
  {
    hide Valid, Fail, Indexes;
    FailKeeps(st, id, how);
    FailEffect(st, id, how);
    ValidIndex(st);
  }

  lemma ValidIndex<C>(st: State<C>)
    requires Valid(st)
    ensures forall p :: p in st.publicIndex.items ==> st.publicIndex.items[p] in st.entries.items
    ensures forall p, q | p in st.publicIndex.items && q in st.publicIndex.items ::
              st.publicIndex.items[p] == st.publicIndex.items[q] ==> p == q
  {
    hide MapsValid, BrokerSpec.Bounded, Apart, Keyed, WindowOf, Balanced, PromisesKept;
  }

  lemma OneFewer<C>(a: State<C>, b: State<C>, pid: string)
    requires Valid(a) && Valid(b) && pid in a.publicIndex.items
    requires b.entries.items == a.entries.items - {a.publicIndex.items[pid]}
    requires b.publicIndex.items == a.publicIndex.items - {pid}
    ensures Shrunk(a, b)
  {
    hide Valid;
    ValidIndex(a);
  }

  lemma ClaimShrinks<C>(st: State<C>, pid: string, expected: Option<Profile>)
    requires Valid(st)
    ensures Shrunk(st, ClaimByPublicId(st, pid, expected).0)
  {
    ValidMaps(st);
    hide Valid, ClaimByPublicId, MapsValid, Indexes, Shrunk;
    ClaimKeeps(st, pid, expected);
    ClaimIsExact(st, pid, expected);
    if ClaimByPublicId(st, pid, expected).1.outcome == OutResolved {
      OneFewer(st, ClaimByPublicId(st, pid, expected).0, pid);
    } else {
      ShrunkToItself(st);
    }
  }

  lemma ShrunkToItself<C>(st: State<C>)
    requires Valid(st)
    ensures Shrunk(st, st)
  {
    hide Valid;
    ValidIndex(st);
  }

  lemma CancelShrinks<C>(st: State<C>, filter: Filter)
    requires Valid(st)
    ensures Shrunk(st, CancelScope(st, filter))
  {
    hide Valid, CancelAll;
    CancelAllEffect(st, st.entries.order, filter);
  }

  lemma ShrunkIsValid<C>(a: State<C>, b: State<C>)
    requires Shrunk(a, b)
    ensures Valid(b)
  {
    hide Valid;
  }

  lemma SameEntriesShrunk<C>(a: State<C>, b: State<C>)
    requires Valid(a) && Valid(b) && b.entries == a.entries && b.publicIndex == a.publicIndex
    ensures Shrunk(a, b)
  {
    hide Valid;
    ValidIndex(a);
  }

  lemma AbortedShrinks<C>(st: State<C>, call: BrokerKey, context: Option<C>)
    requires Valid(st) && MapsValid(st)
    ensures Valid(Create(st, call, context, false).0)
    ensures Shrunk(Create(st, call, context, false).0, Create(st, call, context, true).0)
  {
    hide Valid, MapsValid, Create, Fail, Shrunk, KeyOf;
    CreateKeeps(st, call, context, false);
    var b := Create(st, call, context, false).0;
    ValidMaps(b);
    AbortedCreation(st, call, context);
    if Create(st, call, context, false).1 == None {
      FailShrinks(b, KeyOf(call).value, Cancelled);
    }
    ShrunkToItself(b);
  }
}
