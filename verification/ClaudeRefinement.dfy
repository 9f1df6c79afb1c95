/**
 * A continuation request, as the adapter runs it, is a sequence of the step system's claim steps: it
 * tries one tool result after the other until one resolves, continues that session, and leaves the
 * remaining results alone. So what holds in every run of the step system
 * holds of the adapter's loop.
 */
module ClaudeRefinement {
  import opened Options
  import opened BrokerKeys
  import opened BrokerSpec
  import opened BrokerRuns
  import opened BrokerShrinking
  import opened ClaudeSpec
  import opened ClaudeWorld
  import opened ClaudeProofs
  import opened ClaudeResults
  import opened ClaudeAdapters

  ghost function FollowAll(w: World, steps: seq<Step>): World
    requires Core(w)
    decreases |steps|
  {
    if steps == [] then w else FollowAll(Follow(w, steps[0]), steps[1..])
  }

  /** One claim per result, in order, under the request's profile. */
  function Claims(results: seq<ToolResult>, requestId: string, profile: Profile): (steps: seq<Step>)
    ensures |steps| == |results|
  {
    if results == [] then []
    else
      var first := ClaimResult(requestId, results[0].publicId, profile, results[0].text);
      [first] + Claims(results[1..], requestId, profile)
  }

  /** One claim step, by whose call it resolved. */
  ghost predicate ClaimedOnce(w: World, w': World, b: State<Owner>, owner: Option<Owner>, result: ToolResult,
      requestId: string) {
    && MapsValid(b)
    && if owner == None then w' == w.(sh := w.sh.(broker := b))
       else ContinuedWith(w.sh.(broker := b), w'.sh, w.sessions, w'.sessions, owner.value, result, requestId)
  }

  lemma OneClaim(w: World, result: ToolResult, requestId: string, profile: Profile)
    requires Core(w) && requestId !in w.used
    ensures MapsValid(w.sh.broker)
    ensures var (b, claim) := ClaimByPublicId(w.sh.broker, result.publicId, Some(profile));
            ClaimedOnce(w, Follow(w, ClaimResult(requestId, result.publicId, profile, result.text)),
                        b, if claim.outcome == OutResolved then claim.context else None, result, requestId)
  {
    hide Core, Valid, MapsValid, EntriesOk, ClaimByPublicId, Continue, ContinueForeign;
    CoreMaps(w);
    CoreParts(w, "");
    ClaimLeavesMaps(w.sh.broker, result.publicId, profile);
    ClaimIsExact(w.sh.broker, result.publicId, Some(profile));
    LiveContextsKnown(w);
    ValidIndex(w.sh.broker);
  }

  lemma LiveContextsKnown(w: World)
    requires EntriesOk(w)
    ensures ContextsAmong(w.sh.broker, w.sessions.Keys)
  {
    forall id | id in w.sh.broker.entries.items
        ensures ContextAmong(w.sh.broker.entries.items[id].context, w.sessions.Keys) {
      assert EntryOk(w, id, w.sh.broker.entries.items[id]);
    }
  }

  /** The first result resolves: the continuation is this one step. */
  lemma FirstResultContinues(w: World, results: seq<ToolResult>, requestId: string, profile: Profile)
    requires Core(w) && requestId !in w.used && results != [] && Valid(w.sh.broker)
    requires FirstClaimed(w.sh.broker, results, profile).1.Some?
        && FirstClaimed(w.sh.broker, results, profile).1.value.1 == 0
    ensures var w' := FollowAll(w, Claims(results[..1], requestId, profile));
            ContinuedAs(w.sh, w'.sh, w.sessions, w'.sessions, results, requestId, profile)
  {
    hide Core, Valid, MapsValid, EntriesOk, ClaimByPublicId, Continue, ContinueForeign, Follow;
    OneClaim(w, results[0], requestId, profile);
    assert results[..1] == [results[0]] && results[..1][1..] == [];
    assert Claims(results[..1], requestId, profile)
        == [ClaimResult(requestId, results[0].publicId, profile, results[0].text)];
  }

  lemma SkippedResult(sh: Shared, b: State<Owner>, sh': Shared, before: map<SessionKey, Session>,
      after: map<SessionKey, Session>,
                      results: seq<ToolResult>, requestId: string, profile: Profile)
    requires Valid(sh.broker) && Valid(b) && results != []
    requires FirstClaimed(sh.broker, results, profile) == Shifted(FirstClaimed(b, results[1..], profile), 1)
    requires ContinuedAs(sh.(broker := b), sh', before, after, results[1..], requestId, profile)
    ensures ContinuedAs(sh, sh', before, after, results, requestId, profile)
  {
    hide Valid, MapsValid, FirstClaimed, Continue, ContinueForeign;
  }

  lemma FirstClaimedSkips(b: State<Owner>, results: seq<ToolResult>, profile: Profile)
    requires Valid(b) && results != [] && MapsValid(b)
    ensures Valid(ClaimByPublicId(b, results[0].publicId, Some(profile)).0)
    ensures var (b', claim) := ClaimByPublicId(b, results[0].publicId, Some(profile));
            FirstClaimed(b, results, profile)
              == if claim.outcome == OutResolved && claim.context.Some? then (b', Some((claim.context.value, 0)))
                 else Shifted(FirstClaimed(b', results[1..], profile), 1)
  {
    hide Valid, MapsValid, ClaimByPublicId;
    ClaimKeeps(b, results[0].publicId, Some(profile));
  }

  lemma ClaimsAhead(w: World, results: seq<ToolResult>, n: nat, requestId: string, profile: Profile)
    requires Core(w) && n < |results|
    ensures FollowAll(w, Claims(results[..n + 1], requestId, profile))
         == FollowAll(Follow(w, ClaimResult(requestId, results[0].publicId, profile, results[0].text)),
                      Claims(results[1..][..n], requestId, profile))
  {
    hide Core, Follow;
    assert results[..n + 1][1..] == results[1..][..n] && results[..n + 1][0] == results[0];
  }

  /**
   * Every reachable state satisfies what `ContinueRun` asks of the broker, and what it does is what
   * the claim steps for the results up to the first success do; the later results claim nothing.
   */
  lemma {:induction false} ContinuationIsClaimSteps(w: World, results: seq<ToolResult>, requestId: string,
      profile: Profile)
    requires Core(w) && requestId !in w.used
    ensures Valid(w.sh.broker) && ContextsAmong(w.sh.broker, w.sessions.Keys)
    ensures var found := FirstClaimed(w.sh.broker, results, profile).1;
            var tried := if found.Some? then results[..found.value.1 + 1] else results;
            var w' := FollowAll(w, Claims(tried, requestId, profile));
            ContinuedAs(w.sh, w'.sh, w.sessions, w'.sessions, results, requestId, profile)
    decreases |results|
  {
    hide Core, Valid, MapsValid, EntriesOk, ClaimByPublicId, Continue, ContinueForeign, Follow, FollowAll, Claims,
        ContextsAmong, ContinuedAs,
      FirstClaimed;
    CoreParts(w, "");
    LiveContextsKnown(w);
    if results == [] {
      NothingToClaim(w, requestId, profile);
    } else {
      OneClaim(w, results[0], requestId, profile);
      FirstClaimedSkips(w.sh.broker, results, profile);
      var (b, claim) := ClaimByPublicId(w.sh.broker, results[0].publicId, Some(profile));
      if claim.outcome == OutResolved && claim.context.Some? {
        FirstResultContinues(w, results, requestId, profile);
      } else {
        var w1 := Follow(w, ClaimResult(requestId, results[0].publicId, profile, results[0].text));
        ContinuationIsClaimSteps(w1, results[1..], requestId, profile);
        var found := FirstClaimed(b, results[1..], profile).1;
        var n := if found.Some? then found.value.1 + 1 else |results| - 1;
        ClaimsAhead(w, results, n, requestId, profile);
        assert results[1..][..|results| - 1] == results[1..] && results[..|results|] == results;
        var w' := FollowAll(w1, Claims(results[1..][..n], requestId, profile));
        SkippedResult(w.sh, b, w'.sh, w.sessions, w'.sessions, results, requestId, profile);
      }
    }
  }

  lemma NothingToClaim(w: World, requestId: string, profile: Profile)
    requires Core(w) && Valid(w.sh.broker)
    ensures FirstClaimed(w.sh.broker, [], profile).1 == None
    ensures ContinuedAs(w.sh, FollowAll(w, Claims([], requestId, profile)).sh, w.sessions,
                        FollowAll(w, Claims([], requestId, profile)).sessions, [], requestId, profile)
  {
    hide Core, Valid;
  }
}
