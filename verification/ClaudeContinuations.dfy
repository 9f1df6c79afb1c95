/**
 * What a continuation request can leave behind. A claimed result reopens its session exactly when the
 * parked frame was still pending; where it was not, the session never parks another call, in any run,
 * and refuses every frame. A claimed call of another adapter cancels every parked call of this one
 * and leaves its sessions as they were.
 */
module ClaudeContinuations {
  import opened Options
  import opened OrderedMaps
  import opened BrokerKeys
  import opened BrokerSpec
  import opened BrokerRuns
  import opened BrokerShrinking
  import opened ClaudeSpec
  import opened ClaudeWorld
  import opened ClaudeSessionProofs
  import opened ClaudeProofs
  import opened ClaudeRuns
  import opened ClaudeTheorems
  import opened ClaudeResults

  // ---- a result that comes after its frame ----

  /** The gate is shut, and no call is parked that could open it. */
  predicate Stuck(s: Session) {
    s.gate && s.parked == None && s.publicId == None
  }

  /** The call parked in session `k` can still be claimed; its frame may be gone. */
  ghost predicate Claimable(w: World, k: SessionKey, f: FrameId, pid: string) {
    && k in w.sessions && w.sessions[k].parked == Some(f) && w.sessions[k].publicId == Some(pid)
    && pid in w.sh.broker.publicIndex.items && w.sh.broker.publicIndex.items[pid] in w.sh.broker.entries.items
    && w.sh.broker.entries.items[w.sh.broker.publicIndex.items[pid]].context == Some(ClaudeSession(k))
  }

  lemma ParkedIsShut(s: Session, claims: map<string, (Profile, string)>, minted: set<string>)
    requires SessionOk(s, claims, minted) && s.parked.Some?
    ensures s.gate && s.ttl
  {
    hide ControlOk, TextsClaimed, FramesOk;
  }

  lemma ContinueOpens(sh: Shared, k: SessionKey, s: Session, f: FrameId, pid: string, rid: string, text: string)
    requires s.parked == Some(f) && s.gate && s.ttl
    ensures var t := Continue(sh, k, s, pid, rid, text).1;
            && t.parked == None && t.publicId == None && t.gate == t.ttl && (t.gate <==> f !in s.control.pending)
  {
  }

  /**
   * The claim reopens the gate and retires the deadline exactly when the parked frame is still pending; otherwise the
   * session is stuck.
   */
  lemma ClaimReopensExactly(w: World, k: SessionKey, f: FrameId, rid: string, pid: string,
      profile: Profile, text: string)
    requires Core(w) && MapsValid(w.sh.broker) && Claimable(w, k, f, pid) && profile == w.sessions[k].profile
    ensures k in AfterClaim(w, rid, pid, profile, text).sessions
    ensures var t := AfterClaim(w, rid, pid, profile, text).sessions[k];
            && t.parked == None && t.publicId == None
            && (!t.gate <==> f in w.sessions[k].control.pending) && (!t.ttl <==> f in w.sessions[k].control.pending)
            && (Stuck(t) <==> f !in w.sessions[k].control.pending)
  {
    hide Core, Valid, MapsValid, EntriesOk, SessionOk, Continue, ClaimByPublicId;
    CoreParts(w, k);
    ParkedIsShut(w.sessions[k], w.claims, w.minted);
    ClaimNamesItsSession(w, pid, k);
    ClaimIsExact(w.sh.broker, pid, Some(profile));
    ContinueOpens(w.sh.(broker := ClaimByPublicId(w.sh.broker, pid, Some(profile)).0), k, w.sessions[k], f,
        pid, rid, text);
  }

  // ---- nothing opens a stuck session ----

  lemma CloseLeavesStuck(sh: Shared, key: SessionKey, s: Session)
    requires MapsValid(sh.broker) && Stuck(s)
    ensures Stuck(Close(sh, key, s).1)
  {
    hide MapsValid, CancelScope;
  }

  lemma ArriveLeavesStuck(s: Session, f: FrameId, socket: Socket)
    requires Stuck(s)
    ensures Stuck(Arrive(s, f, socket))
  {
    hide Admit, Release;
  }

  lemma ResumeLeavesStuck(sh: Shared, key: SessionKey, s: Session, pid: string)
    requires MapsValid(sh.broker) && Stuck(s) && s.handoff.Ready?
    ensures Stuck(Resume(sh, key, s, pid).1)
  {
    hide MapsValid, Close, Release, Create;
    var t := Rejected(s.(handoff := NoPromise, drain := Idle), s.handoff.frame);
    CloseLeavesStuck(sh, key, t);
  }

  lemma OwnStepLeavesStuck(w: World, step: Step)
    requires MapsValid(w.sh.broker) && Enabled(w, step) && SessionStep(step)
    requires step.key in w.sessions && Stuck(w.sessions[step.key])
    ensures step.key in After(w, step).sessions && Stuck(After(w, step).sessions[step.key])
  {
    hide MapsValid, Close, Arrive, Release, DropSocket, CloseControl;
    var key := step.key;
    var s := w.sessions[key];
    match step
    case LoopTop(_) => CloseLeavesStuck(w.sh, key, s.(drain := Idle));
    case DrainEnds(_) => CloseLeavesStuck(w.sh, key, s.(drain := Idle));
    case Frame(_, f, socket) => ArriveLeavesStuck(s, f, socket);
    case SessionTtl(_) => CloseLeavesStuck(w.sh, key, s);
    case SocketGone(_, socket) => CloseLeavesStuck(w.sh, key, s.(control := DropSocket(s.control, socket).0));
    case _ =>
  }

  lemma OtherStepLeavesAlone(w: World, step: Step, k: SessionKey)
    requires MapsValid(w.sh.broker) && Enabled(w, step) && SessionStep(step) && k in w.sessions && step.key != k
    ensures k in After(w, step).sessions && After(w, step).sessions[k] == w.sessions[k]
  {
    hide MapsValid, Close, Arrive, Release, DropSocket, CloseControl, Loop;
  }

  /** A claim only continues a session that has a public id. */
  lemma ClaimLeavesStuck(w: World, rid: string, pid: string, profile: Profile, text: string, k: SessionKey)
    requires Core(w) && MapsValid(w.sh.broker) && k in w.sessions && Stuck(w.sessions[k])
    ensures k in AfterClaim(w, rid, pid, profile, text).sessions
    ensures AfterClaim(w, rid, pid, profile, text).sessions[k] == w.sessions[k]
  {
    hide Core, Valid, MapsValid, EntriesOk, SessionOk, Continue, ContinueForeign, ClaimByPublicId;
    CoreParts(w, k);
    ClaimIsExact(w.sh.broker, pid, Some(profile));
    ValidIndex(w.sh.broker);
    var claim := ClaimByPublicId(w.sh.broker, pid, Some(profile)).1;
    if claim.outcome == OutResolved && claim.context == Some(ClaudeSession(k)) {
      ClaimNamesItsSession(w, pid, k);
    }
  }

  lemma OpensAnother(w: World, rid: string, k: SessionKey)
    requires Core(w) && k in w.sessions && rid !in w.used
    ensures rid != k
  {
    hide KeysOk, EntriesOk, Valid, PublicOk, ForeignApart, RequestOk, IdsOk, ParkedApart, SessionsOk;
    UnusedIsNoSession(w.sessions, w.used, rid);
  }

  lemma BrokerStepLeavesAlone(w: World, step: Step)
    requires MapsValid(w.sh.broker) && Enabled(w, step)
    requires step.RunReturns? || step.BrokerTtl? || step.OtherCreates? || step.OtherClaims? || step.OtherFails?
        || step.OtherCancels?
    ensures After(w, step).sessions == w.sessions
  {
    hide MapsValid, Fail, Create, CancelScope, ClaimByPublicId;
  }

  lemma StuckStays(w: World, step: Step, k: SessionKey)
    requires Core(w) && k in w.sessions && Stuck(w.sessions[k])
    ensures k in Follow(w, step).sessions && Stuck(Follow(w, step).sessions[k])
  {
    hide Core, MapsValid, Stuck, Enabled, After;
    CoreMaps(w);
    if Enabled(w, step) {
      EnabledStepLeavesStuck(w, step, k);
    }
  }

  lemma EnabledStepLeavesStuck(w: World, step: Step, k: SessionKey)
    requires Core(w) && MapsValid(w.sh.broker) && Enabled(w, step) && k in w.sessions && Stuck(w.sessions[k])
    ensures k in After(w, step).sessions && Stuck(After(w, step).sessions[k])
  {
    hide Core, MapsValid, Stuck, AfterClaim, Close, Resume, Fail, Create, CancelScope, ClaimByPublicId;
    if SessionStep(step) {
      hide After;
      if step.key == k {
        OwnStepLeavesStuck(w, step);
      } else {
        OtherStepLeavesAlone(w, step, k);
      }
    } else {
      match step
      case Open(rid, _) => OpensAnother(w, rid, k);
      case ResumeCall(key, pid) =>
        if key == k {
          ResumeLeavesStuck(w.sh, k, w.sessions[k], pid);
        }
      case ClaimResult(rid, pid, profile, text) => ClaimLeavesStuck(w, rid, pid, profile, text, k);
      case CancelRequest(rid) =>
        if w.sh.byRequest[rid] == k {
          CloseLeavesStuck(w.sh, k, w.sessions[k]);
        }
      case _ => BrokerStepLeavesAlone(w, step);
    }
  }

  /** Once stuck, a session stays so to the end of every run, and each further frame is refused on the spot. */
  lemma {:induction false} StuckForGood(maxLive: nat, maxPending: nat, steps: seq<Step>, i: nat, k: SessionKey)
    requires i <= |steps|
    requires k in Before(maxLive, maxPending, steps, i).sessions
        && Stuck(Before(maxLive, maxPending, steps, i).sessions[k])
    ensures k in ClaudeResults.Run(maxLive, maxPending, steps).sessions
        && Stuck(ClaudeResults.Run(maxLive, maxPending, steps).sessions[k])
    ensures RefusesAll(ClaudeResults.Run(maxLive, maxPending, steps).sessions[k])
    decreases |steps| - i
  {
    hide Core, ClaudeResults.Run, Follow, Stuck;
    if i == |steps| {
      assert steps[..i] == steps;
      var w := ClaudeResults.Run(maxLive, maxPending, steps);
      CoreParts(w, k);
      StuckRefuses(w.sessions[k], w.claims, w.minted);
    } else {
      BeforeNext(maxLive, maxPending, steps, i);
      StuckStays(Before(maxLive, maxPending, steps, i), steps[i], k);
      StuckForGood(maxLive, maxPending, steps, i + 1, k);
    }
  }

  /** A new frame on an open connection is answered with a refusal and changes nothing else. */
  ghost predicate RefusesAll(s: Session) {
    forall f, socket | f !in s.seen && socket !in s.control.dead ::
      Arrive(s, f, socket) == s.(seen := s.seen + {f},
          control := s.control.(replies := s.control.replies + [Reply(f, Refused)]))
  }

  lemma StuckRefuses(s: Session, claims: map<string, (Profile, string)>, minted: set<string>)
    requires SessionOk(s, claims, minted) && Stuck(s)
    ensures RefusesAll(s)
  {
    hide SessionOk, Admit, Release;
    forall f, socket | f !in s.seen && socket !in s.control.dead
      ensures Arrive(s, f, socket) == s.(seen := s.seen + {f},
          control := s.control.(replies := s.control.replies + [Reply(f, Refused)]))
    {
      AdmittedThenReleased(s, f, socket, claims, minted);
    }
  }

  // ---- a claim of another adapter's call ----

  /**
   * A continuation that claims another adapter's call continues no session. It cancels every parked call
   * of this adapter: all public ids it holds stay with their sessions, and none can be claimed any more.
   */
  lemma ForeignClaimCancelsEveryCall(w: World, rid: string, pid: string, profile: Profile, text: string)
    requires Core(w) && MapsValid(w.sh.broker) && pid in w.sh.broker.publicIndex.items
    requires w.sh.broker.publicIndex.items[pid] in w.sh.broker.entries.items
    requires w.sh.broker.entries.items[w.sh.broker.publicIndex.items[pid]].provider != Claude
    requires w.sh.broker.entries.items[w.sh.broker.publicIndex.items[pid]].profile == profile
    ensures var w' := AfterClaim(w, rid, pid, profile, text);
            && w'.sessions == w.sessions && w'.sh.byPublic == w.sh.byPublic
            && (forall id :: id in w'.sh.broker.entries.items ==> w'.sh.broker.entries.items[id].provider != Claude)
            && (forall p :: p in w'.sh.byPublic ==> p !in w'.sh.broker.publicIndex.items)
  {
    hide Core, Valid, MapsValid, EntriesOk, CancelScope, ClaimByPublicId, Shrunk;
    CoreParts(w, "");
    ForeignIsNotOurs(w, pid);
    ClaimIsExact(w.sh.broker, pid, Some(profile));
    ClaimShrinks(w.sh.broker, pid, Some(profile));
    var b := ClaimByPublicId(w.sh.broker, pid, Some(profile)).0;
    ShrunkIsValid(w.sh.broker, b);
    ClaimLeavesMaps(w.sh.broker, pid, profile);
    NoClaudeLeft(b);
    CancelShrinks(b, EveryClaude());
    var c := CancelScope(b, EveryClaude());
    assert w.sh.byPublic - {pid} == w.sh.byPublic;
    assert AfterClaim(w, rid, pid, profile, text).sh.broker == c;
    ForeignIdsElsewhere(w, b, c);
  }

  lemma NoClaudeLeft(b: State<Owner>)
    requires Valid(b) && MapsValid(b)
    ensures forall id :: id in CancelScope(b, EveryClaude()).entries.items ==>
              CancelScope(b, EveryClaude()).entries.items[id].provider != Claude
  {
    hide Valid, MapsValid, CancelScope;
    CancelScopeIsExact(b, EveryClaude());
  }

  lemma ForeignIdsElsewhere(w: World, b: State<Owner>, c: State<Owner>)
    requires Core(w) && Shrunk(w.sh.broker, b) && Shrunk(b, c)
    requires forall id :: id in c.entries.items ==> c.entries.items[id].provider != Claude
    ensures forall p :: p in w.sh.byPublic ==> p !in c.publicIndex.items
  {
    assert ForeignApart(w.sh.broker, w.sh.byPublic);
    hide Core, Shrunk, ForeignApart;
    ApartShrinks(w.sh.broker, b, w.sh.byPublic, w.sh.byPublic);
    ApartShrinks(b, c, w.sh.byPublic, w.sh.byPublic);
    ShrunkIsValid(b, c);
    ApartMeansNone(c, w.sh.byPublic);
  }

  lemma ApartMeansNone(c: State<Owner>, byPublic: map<string, SessionKey>)
    requires Valid(c) && ForeignApart(c, byPublic)
    requires forall id :: id in c.entries.items ==> c.entries.items[id].provider != Claude
    ensures forall p :: p in byPublic ==> p !in c.publicIndex.items
  {
    ValidIndex(c);
    hide Valid;
  }

  // ---- what any claim does to the other calls ----

  /**
   * The live calls a claim of `id` leaves: all others, or, when that call was another adapter's, all others that are
   * too.
   */
  function LeftBy(entries: map<string, Entry<Owner>>, id: string): map<string, Entry<Owner>>
    requires id in entries
  {
    map x | x in entries && x != id && (entries[id].provider == Claude || entries[x].provider != Claude) :: entries[x]
  }

  lemma SparesExactly(entries: map<string, Entry<Owner>>, id: string)
    requires id in entries
    ensures LeftBy(entries, id) == entries - {id} <==>
              entries[id].provider == Claude || forall x :: x in entries && x != id ==> entries[x].provider != Claude
  {
    if LeftBy(entries, id) == entries - {id} {
      assert forall x :: x in entries && x != id ==> x in entries - {id};
    }
  }

  /**
   * A claim that resolves ends its own call and, of the others, exactly those of this adapter when the call
   * was another's. So it leaves every other live call alone if and only if the call is this adapter's, or
   * this adapter has no call left to lose.
   */
  lemma ClaimSparesTheOthersExactly(w: World, rid: string, pid: string, profile: Profile, text: string)
    requires Core(w) && MapsValid(w.sh.broker) && pid in w.sh.broker.publicIndex.items
    requires w.sh.broker.publicIndex.items[pid] in w.sh.broker.entries.items
    requires w.sh.broker.entries.items[w.sh.broker.publicIndex.items[pid]].profile == profile
    ensures var entries, id := w.sh.broker.entries.items, w.sh.broker.publicIndex.items[pid];
            var after := AfterClaim(w, rid, pid, profile, text).sh.broker.entries.items;
            && after == LeftBy(entries, id)
            && (after == entries - {id} <==>
                  entries[id].provider == Claude || forall x :: x in entries && x != id ==>
                      entries[x].provider != Claude)
  {
    hide Core, Valid, MapsValid, EntriesOk, CancelScope, ClaimByPublicId, Continue, Shrunk, LeftBy;
    CoreParts(w, "");
    var entries, id := w.sh.broker.entries.items, w.sh.broker.publicIndex.items[pid];
    SparesExactly(entries, id);
    ForeignIsNotOurs(w, pid);
    ClaimIsExact(w.sh.broker, pid, Some(profile));
    ClaimShrinks(w.sh.broker, pid, Some(profile));
    var b := ClaimByPublicId(w.sh.broker, pid, Some(profile)).0;
    ShrunkIsValid(w.sh.broker, b);
    ClaimLeavesMaps(w.sh.broker, pid, profile);
    if entries[id].provider == Claude {
      ContinueKeepsBroker(w.sh.(broker := b), entries[id].context.value.key,
          w.sessions[entries[id].context.value.key], pid, rid, text);
      assert entries - {id} == LeftBy(entries, id) by { OwnLeaves(entries, id); }
    } else {
      ForeignLeaves(b, entries, id);
    }
  }

  lemma ContinueKeepsBroker(sh: Shared, key: SessionKey, s: Session, pid: string, rid: string, text: string)
    ensures Continue(sh, key, s, pid, rid, text).0.broker == sh.broker
  {
  }

  lemma OwnLeaves(entries: map<string, Entry<Owner>>, id: string)
    requires id in entries && entries[id].provider == Claude
    ensures entries - {id} == LeftBy(entries, id)
  {
  }

  lemma ForeignLeaves(b: State<Owner>, entries: map<string, Entry<Owner>>, id: string)
    requires Valid(b) && MapsValid(b) && id in entries && b.entries.items == entries - {id}
        && entries[id].provider != Claude
    ensures CancelScope(b, EveryClaude()).entries.items == LeftBy(entries, id)
  {
    hide Valid, MapsValid, CancelScope;
    CancelScopeIsExact(b, EveryClaude());
  }

  // ---- a run in which it happens ----

  function ForeignCall(profile: Profile): BrokerKey {
    BrokerKey(Some(profile), Google, "s", None, "c", Some("x"))
  }

  /** Two calls under different keys and ids both fit a broker that has room for two. */
  lemma TwoFit(maxPending: nat, a: BrokerKey, b: BrokerKey, x: Option<Owner>, y: Option<Owner>)
    requires maxPending > 1 && KeyOf(a).Ok? && KeyOf(b).Ok? && KeyOf(a) != KeyOf(b)
    requires a.publicId.Some? && b.publicId.Some? && a.publicId != b.publicId
    ensures MapsValid(Initial<Owner>(maxPending))
    ensures var (st, refusal) := Create(Initial<Owner>(maxPending), a, x, false);
            refusal == None && MapsValid(st) && Create(st, b, y, false).1 == None
  {
    assert a.profile.Some? && b.profile.Some?;
    hide KeyOf;
  }

  lemma KeysDiffer(profile: Profile)
    ensures KeyOf(ForeignCall(profile)).Ok? && KeyOf(KeyFor("r", Handing(profile, false), "p")).Ok?
    ensures KeyOf(ForeignCall(profile)) != KeyOf(KeyFor("r", Handing(profile, false), "p"))
  {
    KeyIsInjective(ForeignCall(profile), KeyFor("r", Handing(profile, false), "p"));
  }

  lemma ParkedBroker(w: World, profile: Profile)
    requires MapsValid(w.sh.broker) && w.sessions == map["r" := Handing(profile, false)] && w.minted == {}
    requires Parks(w.sh, "r", Handing(profile, false), "p")
    ensures Next(w, ResumeCall("r", "p")).sh.broker
         == Create(w.sh.broker, KeyFor("r", Handing(profile, false), "p"), Some(ClaudeSession("r")), false).0
    ensures Next(w, ResumeCall("r", "p")).minted == {"p"} && Next(w, ResumeCall("r", "p")).used == w.used
  {
    hide MapsValid, Create, KeyOf, Close;
    assert KeyFor("r", Handing(profile, false).(handoff := NoPromise, drain := Idle), "p")
        == KeyFor("r", Handing(profile, false), "p");
  }

  lemma OtherJoins(w: World, profile: Profile)
    requires Core(w) && MapsValid(w.sh.broker) && w.minted == {"p"}
    requires Create(w.sh.broker, ForeignCall(profile), Some(OtherAdapter), false).1 == None
    ensures var t := Next(w, OtherCreates(ForeignCall(profile), false));
            && t.sessions == w.sessions && t.used == w.used
            && "x" in t.sh.broker.publicIndex.items && t.sh.broker.publicIndex.items["x"] in t.sh.broker.entries.items
            && t.sh.broker.entries.items[t.sh.broker.publicIndex.items["x"]].provider == Google
            && t.sh.broker.entries.items[t.sh.broker.publicIndex.items["x"]].profile == profile
            && (forall p :: p in w.sh.broker.publicIndex.items ==> p in t.sh.broker.publicIndex.items)
  {
    hide Core, Valid, MapsValid, Create, KeyOf;
    CoreParts(w, "");
    CreateEffect(w.sh.broker, ForeignCall(profile), Some(OtherAdapter));
  }

  /** A call is parked, and another adapter parks one under the same profile. */
  function BothParked(profile: Profile): seq<Step> {
    [Open("r", profile), LoopTop("r"), Frame("r", "f", 0)] + [ResumeCall("r", "p")]
    + [OtherCreates(ForeignCall(profile), false)]
  }

  lemma PublicIsKnown(w: World, k: SessionKey)
    requires Core(w) && k in w.sessions && w.sessions[k].publicId.Some?
    ensures w.sessions[k].publicId.value in w.sh.byPublic
  {
    hide Valid, EntriesOk, ForeignApart, RequestOk, IdsOk, ParkedApart, KeysOk, SessionsOk;
  }

  /** The session `r` has its call parked under `p`, and no request `q` has been seen. */
  ghost predicate StillParked(w: World) {
    && "r" in w.sessions && w.sessions["r"].parked == Some("f") && w.sessions["r"].publicId == Some("p")
    && "q" !in w.used
  }

  lemma FirstIsParked(maxLive: nat, maxPending: nat, profile: Profile)
    requires maxLive > 0 && maxPending > 1
    ensures var w := ClaudeResults.Run(maxLive, maxPending,
                       [Open("r", profile), LoopTop("r"), Frame("r", "f", 0)] + [ResumeCall("r", "p")]);
            && StillParked(w) && w.minted == {"p"} && MapsValid(w.sh.broker) && "p" in w.sh.broker.publicIndex.items
            && Create(w.sh.broker, ForeignCall(profile), Some(OtherAdapter), false).1 == None
  {
    hide Core, Parks, Resume, AfterClaim, Create, KeyOf, ForeignCall, KeyFor;
    var front := [Open("r", profile), LoopTop("r"), Frame("r", "f", 0)];
    ArrivedRun(maxLive, maxPending, profile);
    FirstParkPasses(maxLive, maxPending, profile, false, map["r" := "r"]);
    RunOnce(maxLive, maxPending, front, ResumeCall("r", "p"));
    var w := ClaudeResults.Run(maxLive, maxPending, front);
    CoreMaps(w);
    FirstParkIsDeliverable(w, profile);
    ParkedBroker(w, profile);
    CoreMaps(Follow(w, ResumeCall("r", "p")));
    KeysDiffer(profile);
    ForeignCallIs(profile);
    TwoFit(maxPending, KeyFor("r", Handing(profile, false), "p"), ForeignCall(profile), Some(ClaudeSession("r")),
        Some(OtherAdapter));
  }

  lemma BothAreParked(maxLive: nat, maxPending: nat, profile: Profile)
    requires maxLive > 0 && maxPending > 1
    ensures var w := ClaudeResults.Run(maxLive, maxPending, BothParked(profile));
            && StillParked(w) && "p" in w.sh.broker.publicIndex.items
            && "x" in w.sh.broker.publicIndex.items && w.sh.broker.publicIndex.items["x"] in w.sh.broker.entries.items
            && w.sh.broker.entries.items[w.sh.broker.publicIndex.items["x"]].provider == Google
            && w.sh.broker.entries.items[w.sh.broker.publicIndex.items["x"]].profile == profile
  {
    hide Core, After, Create, ForeignCall;
    var parked := [Open("r", profile), LoopTop("r"), Frame("r", "f", 0)] + [ResumeCall("r", "p")];
    FirstIsParked(maxLive, maxPending, profile);
    RunOnce(maxLive, maxPending, parked, OtherCreates(ForeignCall(profile), false));
    OtherJoins(ClaudeResults.Run(maxLive, maxPending, parked), profile);
  }

  /**
   * A continuation brings the other adapter's result. Before it the parked call can be claimed; after it
   * the call is still parked, and cannot.
   */
  lemma ForeignClaimHappens(maxLive: nat, maxPending: nat, profile: Profile, text: string)
    requires maxLive > 0 && maxPending > 1
    ensures var w := ClaudeResults.Run(maxLive, maxPending, BothParked(profile));
            var t := ClaudeResults.Run(maxLive, maxPending,
                BothParked(profile) + [ClaimResult("q", "x", profile, text)]);
            && "p" in w.sh.broker.publicIndex.items && "p" !in t.sh.broker.publicIndex.items
            && "r" in t.sessions && t.sessions["r"].parked == Some("f") && t.sessions["r"].publicId == Some("p")
  {
    hide Core, AfterClaim, BothParked, ClaudeResults.Run;
    BothAreParked(maxLive, maxPending, profile);
    RunOnce(maxLive, maxPending, BothParked(profile), ClaimResult("q", "x", profile, text));
    var w := ClaudeResults.Run(maxLive, maxPending, BothParked(profile));
    CoreMaps(w);
    PublicIsKnown(w, "r");
    ForeignClaimCancelsEveryCall(w, "q", "x", profile, text);
  }

  lemma ForeignCallIs(profile: Profile)
    ensures ForeignCall(profile).publicId == Some("x")
        && KeyFor("r", Handing(profile, false), "p").publicId == Some("p")
  {
  }
}
