/**
 * What the steps that only take something away keep across all sessions and the shared maps: a step
 * inside one session, the loss of entries from the shared broker, and the closing of a session.
 * Each conjunct of the core invariant is kept by a small lemma of its own on just the maps it speaks
 * of; the lemma about the whole state then only puts them together.
 */
module ClaudeProofs {
  import opened Options
  import opened Sets
  import opened BrokerKeys
  import opened BrokerSpec
  import opened BrokerRuns
  import opened BrokerShrinking
  import opened ClaudeSpec
  import opened ClaudeWorld
  import opened ClaudeSessionProofs

  // ---- one session changes, nothing shared does ----

  lemma OnlyKeepsEntries(w: World, key: SessionKey, t: Session)
    requires EntriesOk(w) && key in w.sessions && SameIdentity(w.sessions[key], t)
    ensures EntriesOk(Only(w, key, t))
  {
    var w' := Only(w, key, t);
    forall id | id in w'.sh.broker.entries.items ensures EntryOk(w', id, w'.sh.broker.entries.items[id]) {
      var e := w.sh.broker.entries.items[id];
      assert EntryOk(w, id, e);
      if e.provider == Claude {
        var p :| IndexedAs(w, id, p, e);
        assert IndexedAs(w', id, p, e);
      }
    }
  }

  lemma OnlyKeepsMaps(byPublic: map<string, SessionKey>, byRequest: map<string, SessionKey>,
                      sessions: map<SessionKey, Session>, key: SessionKey, t: Session)
    requires PublicOk(byPublic, sessions) && RequestOk(byRequest, sessions) && ParkedApart(sessions)
    requires key in sessions && SameIdentity(sessions[key], t)
    ensures var sessions' := sessions[key := t];
            PublicOk(byPublic, sessions') && RequestOk(byRequest, sessions') && ParkedApart(sessions')
  {
  }

  lemma OnlyKeepsRetired(w: World, key: SessionKey, t: Session)
    requires key in w.sessions && SameIdentity(w.sessions[key], t)
    ensures TerminatedAreRetired(Only(w, key, t)) <==> TerminatedAreRetired(w)
  {
    hide NoEntryFor;
    var w' := Only(w, key, t);
    forall k | k in w.sessions
      ensures Retired(k, w.sessions[k], w.sh) <==> Retired(k, w'.sessions[k], w'.sh)
    {
    }
    hide Retired;
    assert w'.sessions.Keys == w.sessions.Keys;
    assert forall k :: k in w.sessions ==> w'.sessions[k].terminated == w.sessions[k].terminated;
  }

  lemma OnlyKeeps(w: World, key: SessionKey, t: Session)
    requires Core(w) && key in w.sessions && SameIdentity(w.sessions[key], t) && SessionOk(t, w.claims, w.minted)
    ensures Core(Only(w, key, t))
    ensures TerminatedAreRetired(Only(w, key, t)) <==> TerminatedAreRetired(w)
  {
    hide Valid, EntriesOk, SessionOk, PublicOk, ForeignApart, RequestOk, IdsOk, ParkedApart,
        TerminatedAreRetired, SameIdentity;
    OnlyKeepsEntries(w, key, t);
    OnlyKeepsMaps(w.sh.byPublic, w.sh.byRequest, w.sessions, key, t);
    OnlyKeepsRetired(w, key, t);
  }

  // ---- the broker loses entries ----

  function WithBroker(w: World, b: State<Owner>): World {
    w.(sh := w.sh.(broker := b))
  }

  lemma ShrunkEntriesOk(w: World, b: State<Owner>)
    requires EntriesOk(w) && Shrunk(w.sh.broker, b)
    ensures EntriesOk(WithBroker(w, b))
  {
    hide Valid;
    var w' := WithBroker(w, b);
    forall id | id in b.entries.items ensures EntryOk(w', id, b.entries.items[id]) {
      var e := w.sh.broker.entries.items[id];
      assert EntryOk(w, id, e);
      if e.provider == Claude {
        var p :| IndexedAs(w, id, p, e);
        assert IndexedAs(w', id, p, e);
      }
    }
  }

  lemma ShrunkRetired(k: SessionKey, s: Session, sh: Shared, b: State<Owner>)
    requires Retired(k, s, sh) && Shrunk(sh.broker, b)
    ensures Retired(k, s, sh.(broker := b))
  {
    hide Valid;
  }

  lemma ShrunkIdsOk(a: State<Owner>, b: State<Owner>, minted: set<string>, claims: map<string, (Profile, string)>)
    requires Shrunk(a, b) && IdsOk(a.publicIndex.items, minted, claims)
    ensures IdsOk(b.publicIndex.items, minted, claims)
  {
    hide Valid;
  }

  lemma ApartShrinks(a: State<Owner>, b: State<Owner>, before: map<string, SessionKey>, after: map<string, SessionKey>)
    requires ForeignApart(a, before) && Shrunk(a, b) && after.Keys <= before.Keys
    ensures ForeignApart(b, after)
  {
    hide Valid;
  }

  lemma BrokerShrinks(w: World, b: State<Owner>)
    requires Core(w) && Shrunk(w.sh.broker, b)
    ensures Core(WithBroker(w, b))
    ensures TerminatedAreRetired(w) ==> TerminatedAreRetired(WithBroker(w, b))
  {
    assert Valid(b);
    hide Valid, Shrunk, EntriesOk, PublicOk, ForeignApart, RequestOk, IdsOk, ParkedApart, KeysOk, SessionsOk, Retired;
    ShrunkEntriesOk(w, b);
    ApartShrinks(w.sh.broker, b, w.sh.byPublic, w.sh.byPublic);
    ShrunkIdsOk(w.sh.broker, b, w.minted, w.claims);
    if TerminatedAreRetired(w) {
      forall k | k in w.sessions && w.sessions[k].terminated ensures Retired(k, w.sessions[k], w.sh.(broker := b)) {
        ShrunkRetired(k, w.sessions[k], w.sh, b);
      }
    }
  }

  // ---- a session closes ----

  lemma OwnScopeIsReadable(w: World, key: SessionKey, id: string)
    requires EntriesOk(w) && id in w.sh.broker.entries.items
    ensures Readable(w.sh.broker.entries.items[id], ScopeOf(key))
  {
    assert EntryOk(w, id, w.sh.broker.entries.items[id]);
  }

  lemma CancelOwnScope(w: World, key: SessionKey)
    requires Valid(w.sh.broker) && MapsValid(w.sh.broker) && EntriesOk(w)
    ensures var b := CancelScope(w.sh.broker, ScopeOf(key));
            Shrunk(w.sh.broker, b) && NoEntryFor(b.entries.items, key)
  {
    hide Valid, MapsValid, CancelScope, Shrunk, EntriesOk, Readable;
    var st := w.sh.broker;
    forall id | id in st.entries.items ensures Readable(st.entries.items[id], ScopeOf(key)) {
      OwnScopeIsReadable(w, key, id);
    }
    CancelShrinks(st, ScopeOf(key));
    CancelScopeIsExact(st, ScopeOf(key));
  }

  /** The entries, after the session's own part of closing and its broker scope are known. */
  lemma ClosedEntriesOk(w: World, w': World, key: SessionKey)
    requires EntriesOk(w) && key in w.sessions
    requires Shrunk(w.sh.broker, w'.sh.broker) && NoEntryFor(w'.sh.broker.entries.items, key)
    requires w'.sessions.Keys == w.sessions.Keys && forall k :: k in w.sessions && k != key ==>
        w'.sessions[k] == w.sessions[k]
    ensures EntriesOk(w')
  {
    hide Valid;
    forall id | id in w'.sh.broker.entries.items ensures EntryOk(w', id, w'.sh.broker.entries.items[id]) {
      var e := w.sh.broker.entries.items[id];
      assert EntryOk(w, id, e);
      if e.provider == Claude {
        var p :| IndexedAs(w, id, p, e);
        assert IndexedAs(w', id, p, e);
      }
    }
  }

  function ByPublicAfter(byPublic: map<string, SessionKey>, publicId: Option<string>): map<string, SessionKey> {
    if publicId.Some? then byPublic - {publicId.value} else byPublic
  }

  lemma ClosedPublicOk(byPublic: map<string, SessionKey>, sessions: map<SessionKey, Session>,
      key: SessionKey, t: Session)
    requires PublicOk(byPublic, sessions) && key in sessions && t.publicId == None
    ensures var byPublic' := ByPublicAfter(byPublic, sessions[key].publicId);
            && PublicOk(byPublic', sessions[key := t])
            && (forall p :: p in byPublic' ==> byPublic'[p] != key && p in byPublic && byPublic[p] == byPublic'[p])
  {
  }

  lemma ByPublicShrinks(byPublic: map<string, SessionKey>, publicId: Option<string>)
    ensures |ByPublicAfter(byPublic, publicId)| <= |byPublic|
  {
    SubsetSize(ByPublicAfter(byPublic, publicId).Keys, byPublic.Keys);
  }

  lemma ClosedRequestOk(byRequest: map<string, SessionKey>, sessions: map<SessionKey, Session>,
      key: SessionKey, t: Session)
    requires RequestOk(byRequest, sessions) && key in sessions && t.requestId == sessions[key].requestId
    ensures var byRequest' := byRequest - {t.requestId};
            && RequestOk(byRequest', sessions[key := t])
            && (forall r :: r in byRequest' ==> byRequest'[r] != key && r in byRequest && byRequest[r] == byRequest'[r])
  {
  }

  lemma ClosedRetired(w: World, w': World, key: SessionKey)
    requires key in w.sessions && key in w'.sessions && w'.sessions == w.sessions[key := w'.sessions[key]]
    requires TerminatedAreRetired(w) && Retired(key, w'.sessions[key], w'.sh)
    requires Shrunk(w.sh.broker, w'.sh.broker)
    requires forall p :: p in w'.sh.byPublic ==> p in w.sh.byPublic && w.sh.byPublic[p] == w'.sh.byPublic[p]
    requires forall r :: r in w'.sh.byRequest ==> r in w.sh.byRequest && w.sh.byRequest[r] == w'.sh.byRequest[r]
    ensures TerminatedAreRetired(w')
  {
    hide Valid;
    forall k | k in w'.sessions && w'.sessions[k].terminated ensures Retired(k, w'.sessions[k], w'.sh) {
      if k != key {
        assert Retired(k, w.sessions[k], w.sh);
      }
    }
  }

  lemma ApartWhenTapeStays(sessions: map<SessionKey, Session>, key: SessionKey, t: Session)
    requires ParkedApart(sessions) && key in sessions && t.parkedAs == sessions[key].parkedAs
    ensures ParkedApart(sessions[key := t])
  {
  }

  /** Field by field, what closing a session that was not terminated changes. */
  ghost predicate ClosedInto(w: World, w': World, key: SessionKey, t: Session) {
    && key in w.sessions
    && w' == w.(sh := w'.sh, sessions := w.sessions[key := t])
    && w'.sh.byRequest == w.sh.byRequest - {w.sessions[key].requestId}
    && w'.sh.byPublic == ByPublicAfter(w.sh.byPublic, w.sessions[key].publicId)
    && w'.sh.maxLive == w.sh.maxLive
    && t.publicId == None && !t.ttl && t.requestId == w.sessions[key].requestId
        && t.parkedAs == w.sessions[key].parkedAs
    && SessionOk(t, w.claims, w.minted)
  }

  lemma CloseShape(w: World, key: SessionKey)
    requires MapsValid(w.sh.broker) && key in w.sessions && SessionOk(w.sessions[key], w.claims, w.minted)
    requires !w.sessions[key].terminated
    ensures var w' := CloseAt(w, key, w.sessions[key]);
            && w'.sh.broker == CancelScope(w.sh.broker, ScopeOf(key))
            && key in w'.sessions && ClosedInto(w, w', key, w'.sessions[key])
  {
    hide CancelScope, SessionOk, MapsValid;
    ClosedOk(w.sh, key, w.sessions[key], w.claims, w.minted);
  }

  lemma ClosedMaps(w: World, w': World, key: SessionKey, t: Session)
    requires ClosedInto(w, w', key, t) && PublicOk(w.sh.byPublic, w.sessions) && RequestOk(w.sh.byRequest, w.sessions)
    requires ParkedApart(w.sessions) && KeysOk(w.sessions, w.used) && SessionsOk(w.sessions, w.claims, w.minted)
    ensures key in w.sessions && key in w'.sessions && w'.sessions == w.sessions[key := w'.sessions[key]]
        && w'.minted == w.minted && w'.claims == w.claims
    ensures PublicOk(w'.sh.byPublic, w'.sessions) && |w'.sh.byPublic| <= |w.sh.byPublic|
        && w'.sh.maxLive == w.sh.maxLive
    ensures RequestOk(w'.sh.byRequest, w'.sessions) && ParkedApart(w'.sessions)
    ensures KeysOk(w'.sessions, w'.used) && SessionsOk(w'.sessions, w'.claims, w'.minted)
    ensures forall p :: p in w'.sh.byPublic ==> p in w.sh.byPublic && w.sh.byPublic[p] == w'.sh.byPublic[p]
    ensures forall r :: r in w'.sh.byRequest ==> r in w.sh.byRequest && w.sh.byRequest[r] == w'.sh.byRequest[r]
    ensures NoEntryFor(w'.sh.broker.entries.items, key) ==> Retired(key, w'.sessions[key], w'.sh)
  {
    hide PublicOk, RequestOk, ParkedApart, SessionOk, NoEntryFor;
    ClosedPublicOk(w.sh.byPublic, w.sessions, key, t);
    ByPublicShrinks(w.sh.byPublic, w.sessions[key].publicId);
    ClosedRequestOk(w.sh.byRequest, w.sessions, key, t);
    ApartWhenTapeStays(w.sessions, key, t);
  }

  lemma ClosingKeeps(w: World, w': World, key: SessionKey, t: Session)
    requires Core(w) && ClosedInto(w, w', key, t)
    requires Shrunk(w.sh.broker, w'.sh.broker) && NoEntryFor(w'.sh.broker.entries.items, key)
    ensures Core(w')
    ensures TerminatedAreRetired(w) ==> TerminatedAreRetired(w')
  {
    hide Valid, EntriesOk, SessionOk, SessionsOk, PublicOk, ForeignApart, RequestOk, IdsOk, ParkedApart, KeysOk,
        TerminatedAreRetired,
      Retired, NoEntryFor, Shrunk, ClosedInto;
    ClosedMaps(w, w', key, t);
    ClosedEntriesOk(w, w', key);
    ApartShrinks(w.sh.broker, w'.sh.broker, w.sh.byPublic, w'.sh.byPublic);
    ShrunkIdsOk(w.sh.broker, w'.sh.broker, w.minted, w.claims);
    ShrunkIsValid(w.sh.broker, w'.sh.broker);
    if TerminatedAreRetired(w) {
      ClosedRetired(w, w', key);
    }
  }

  lemma CoreParts(w: World, key: SessionKey)
    requires Core(w)
    ensures Valid(w.sh.broker) && MapsValid(w.sh.broker) && EntriesOk(w)
    ensures key in w.sessions ==> SessionOk(w.sessions[key], w.claims, w.minted)
  {
    hide EntriesOk, SessionOk, Valid;
    assert Valid(w.sh.broker);
    ValidMaps(w.sh.broker);
  }

  lemma CloseKeeps(w: World, key: SessionKey)
    requires Core(w) && key in w.sessions
    ensures Core(CloseAt(w, key, w.sessions[key]))
    ensures TerminatedAreRetired(w) ==> TerminatedAreRetired(CloseAt(w, key, w.sessions[key]))
  {
    hide Core, Valid, MapsValid, EntriesOk, TerminatedAreRetired, CancelScope, SessionOk, Shrunk,
        NoEntryFor, ClosedInto;
    CoreParts(w, key);
    var w' := CloseAt(w, key, w.sessions[key]);
    if w.sessions[key].terminated {
      assert w'.sessions == w.sessions;
    } else {
      CancelOwnScope(w, key);
      CloseShape(w, key);
      ClosingKeeps(w, w', key, w'.sessions[key]);
    }
  }
}
