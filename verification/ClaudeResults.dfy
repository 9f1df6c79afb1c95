/**
 * The main results about parked calls, for every run of the step system: who is answered and with
 * what, how many calls and frames there can be, what termination leaves behind, and that a parked
 * call is delivered. What one step may add to the history of a run comes first, whole runs after it.
 */
module ClaudeResults {
  import opened Options
  import opened OrderedMaps
  import opened BrokerKeys
  import opened BrokerSpec
  import opened BrokerRuns
  import opened BrokerShrinking
  import opened ClaudeSpec
  import opened ClaudeWorld
  import opened ClaudeSessionProofs
  import opened ClaudeProofs
  import opened ClaudeRuns
  import opened ClaudeTheorems

  lemma StartIsCore(maxLive: nat, maxPending: nat)
    ensures Core(Start(maxLive, maxPending)) && TerminatedAreRetired(Start(maxLive, maxPending))
  {
    InitialIsValid<Owner>(maxPending);
    hide Valid;
  }

  lemma NextKeeps(w: World, step: Step)
    requires Core(w) && MapsValid(w.sh.broker)
    ensures Core(Next(w, step))
  {
    hide Core, MapsValid, Enabled, After, TerminatedAreRetired, LatePark;
    if Enabled(w, step) {
      StepKeeps(w, step);
    }
  }

  lemma CoreMaps(w: World)
    requires Core(w)
    ensures MapsValid(w.sh.broker)
  {
    hide EntriesOk, PublicOk, ForeignApart, RequestOk, IdsOk, ParkedApart, KeysOk, SessionsOk;
    ValidMaps(w.sh.broker);
  }

  ghost function Follow(w: World, step: Step): (w': World)
    requires Core(w)
    ensures Core(w')
  {
    hide Core, MapsValid, Next;
    CoreMaps(w);
    NextKeeps(w, step);
    Next(w, step)
  }

  /** The world after a run of steps from the start; steps that are not enabled change nothing. */
  ghost function Run(maxLive: nat, maxPending: nat, steps: seq<Step>): (w: World)
    ensures Core(w)
  {
    hide Core, Follow;
    if steps == [] then
      StartIsCore(maxLive, maxPending);
      Start(maxLive, maxPending)
    else Follow(Run(maxLive, maxPending, steps[..|steps| - 1]), steps[|steps| - 1])
  }

  // ---- what one step may add ----

  ghost predicate Begins<T>(a: seq<T>, b: seq<T>) {
    |a| <= |b| && forall i :: 0 <= i < |a| ==> b[i] == a[i]
  }

  /** A session keeps its profile and its answers, and termination is for good. */
  ghost predicate Lasts(s: Session, t: Session) {
    t.profile == s.profile && (s.terminated ==> t.terminated) && Begins(s.control.replies, t.control.replies)
  }

  /** Beyond that, only a `ResumeCall` of this session parks, and it parks the frame that was handed off. */
  ghost predicate SessionGrows(s: Session, t: Session, k: SessionKey, step: Step) {
    && Lasts(s, t)
    && (t.parkedAs != s.parkedAs ==>
          && step.ResumeCall? && step.key == k && s.handoff.Ready? && s.handoff.frame !in s.parkedAs
          && t.parkedAs == s.parkedAs[s.handoff.frame := step.pid]
          && t.parked == Some(s.handoff.frame) && t.publicId == Some(step.pid))
  }

  ghost predicate Resolves(w: World, pid: string, profile: Profile) {
    && MapsValid(w.sh.broker) && pid in w.sh.broker.publicIndex.items
    && ClaimByPublicId(w.sh.broker, pid, Some(profile)).1.outcome == OutResolved
  }

  /** A new claim is the step's own, and of an id that was live. */
  ghost predicate NewClaim(w: World, w': World, p: string, step: Step) {
    && step.ClaimResult? && step.pid == p && p in w'.claims && w'.claims[p] == (step.profile, step.text)
    && Resolves(w, p, step.profile)
  }

  ghost predicate Grows(w: World, w': World, step: Step) {
    && (forall k :: k in w.sessions ==> k in w'.sessions && SessionGrows(w.sessions[k], w'.sessions[k], k, step))
    && (forall k :: k in w'.sessions && k !in w.sessions ==> w'.sessions[k].parkedAs == map[])
    && (forall p :: p in w.claims ==> p in w'.claims && w'.claims[p] == w.claims[p])
    && (forall p :: p in w'.claims && p !in w.claims ==> NewClaim(w, w', p, step))
    && w.minted <= w'.minted && (step.ResumeCall? ==> step.pid in w'.minted)
  }

  ghost predicate Stays(s: Session, t: Session) {
    Lasts(s, t) && t.parkedAs == s.parkedAs
  }

  lemma CloseStays(sh: Shared, key: SessionKey, s: Session)
    requires MapsValid(sh.broker)
    ensures Stays(s, Close(sh, key, s).1)
  {
    hide MapsValid, CancelScope;
  }

  lemma ReleaseStays(c: Control, f: FrameId, body: Body)
    ensures Begins(c.replies, Release(c, f, body).0.replies)
  {
  }

  lemma ContinueStays(sh: Shared, key: SessionKey, s: Session, pid: string, rid: string, text: string)
    ensures Stays(s, Continue(sh, key, s, pid, rid, text).1)
  {
    hide Release, Begins;
    if s.parked.Some? {
      ReleaseStays(s.control, s.parked.value, Text(text));
    } else {
      ReleaseStays(s.control, "", Refused);
      assert Begins(s.control.replies, s.control.replies) by { BeginsItself(s.control.replies); }
    }
  }

  lemma BeginsItself<T>(a: seq<T>)
    ensures Begins(a, a)
  {
  }

  lemma AdmitStays(c: Control, f: FrameId, socket: Socket)
    ensures Begins(c.replies, Admit(c, f, socket).0.replies)
  {
  }

  lemma OnToolCallStays(s: Session, f: FrameId)
    ensures Stays(s, OnToolCall(s, f))
  {
    hide Release, Begins;
    ReleaseStays(s.control, f, Refused);
    BeginsItself(s.control.replies);
  }

  lemma ArriveStays(s: Session, f: FrameId, socket: Socket)
    ensures Stays(s, Arrive(s, f, socket))
  {
    hide Admit, OnToolCall;
    AdmitStays(s.control, f, socket);
    OnToolCallStays(s.(control := Admit(s.control, f, socket).0, seen := s.seen + {f}), f);
  }

  lemma LoopStays(s: Session)
    ensures Stays(s, Loop(s))
  {
  }

  lemma RefusedStays(sh: Shared, key: SessionKey, s: Session, s0: Session, f: FrameId)
    requires MapsValid(sh.broker) && Stays(s, s0)
    ensures Stays(s, Close(sh, key, Rejected(s0, f)).1)
  {
    hide MapsValid, Close;
    CloseStays(sh, key, Rejected(s0, f));
    ReleaseStays(s0.control, f, Refused);
    hide Release;
  }

  lemma RefusedCreateMaps(st: State<Owner>, key: BrokerKey, context: Option<Owner>)
    requires MapsValid(st)
    ensures Create(st, key, context, false).1.Some? ==> MapsValid(Create(st, key, context, false).0)
  {
    hide KeyOf;
  }

  lemma ParkGrows(sh: Shared, key: SessionKey, s: Session, pid: string)
    requires MapsValid(sh.broker) && s.handoff.Ready? && s.handoff.frame !in s.parkedAs
    ensures SessionGrows(s, Resume(sh, key, s, pid).1, key, ResumeCall(key, pid))
  {
    hide MapsValid, Create, Close, Rejected, KeyFor;
    var s0 := s.(handoff := NoPromise, drain := Idle);
    var f := s.handoff.frame;
    var created := Create(sh.broker, KeyFor(key, s0, pid), Some(ClaudeSession(key)), false);
    RefusedCreateMaps(sh.broker, KeyFor(key, s0, pid), Some(ClaudeSession(key)));
    if s.gate || |sh.byPublic| >= sh.maxLive {
      RefusedStays(sh, key, s, s0, f);
    } else if created.1.Some? {
      RefusedStays(sh.(broker := created.0), key, s, s0.(gate := false, parked := None, publicId := None), f);
    }
  }

  lemma OneGrows(w: World, w': World, key: SessionKey, step: Step)
    requires key in w.sessions && key in w'.sessions && SessionGrows(w.sessions[key], w'.sessions[key], key, step)
    requires w'.sessions == w.sessions[key := w'.sessions[key]] && w'.claims == w.claims && w.minted <= w'.minted
    requires step.ResumeCall? ==> step.pid in w'.minted
    ensures Grows(w, w', step)
  {
    hide SessionGrows;
    forall k | k in w.sessions ensures k in w'.sessions && SessionGrows(w.sessions[k], w'.sessions[k], k, step) {
      if k != key {
        UntouchedGrows(w.sessions[k], k, step);
      }
    }
  }

  lemma UntouchedGrows(s: Session, k: SessionKey, step: Step)
    ensures SessionGrows(s, s, k, step)
  {
  }

  lemma StaysGrows(w: World, w': World, key: SessionKey, t: Session, step: Step)
    requires key in w.sessions && Stays(w.sessions[key], t) && !step.ResumeCall?
    requires w'.sessions == w.sessions[key := t] && w'.claims == w.claims && w'.minted == w.minted
    ensures Grows(w, w', step)
  {
    hide Lasts;
    OneGrows(w, w', key, step);
  }

  lemma SocketGoneGrows(w: World, key: SessionKey, socket: Socket)
    requires MapsValid(w.sh.broker) && key in w.sessions
    ensures Grows(w, After(w, SocketGone(key, socket)), SocketGone(key, socket))
  {
    hide MapsValid, Close, Grows;
    var s := w.sessions[key];
    var w' := After(w, SocketGone(key, socket));
    CloseStays(w.sh, key, s.(control := DropSocket(s.control, socket).0));
    StaysGrows(w, w', key, w'.sessions[key], SocketGone(key, socket));
  }

  lemma SessionStepStays(w: World, step: Step)
    requires MapsValid(w.sh.broker) && Enabled(w, step) && SessionStep(step) && !step.SocketGone?
    ensures Stays(w.sessions[step.key], After(w, step).sessions[step.key])
  {
    hide MapsValid, Close, Arrive, Loop, Release, Stays;
    var key := step.key;
    var s := w.sessions[key];
    match step
    case LoopTop(_) => LoopStays(s); RefreshedStays(w.sh, key, s);
    case SdkMessage(_) => FieldsStay(s, s.(drain := Busy));
    case DrainEnds(_) => RefreshedStays(w.sh, key, s);
    case Frame(_, f, socket) => ArriveStays(s, f, socket);
    case FrameTtl(_, f) => ReleaseStays(s.control, f, Expiry); ExpiredStays(s, f);
    case SessionTtl(_) => CloseStays(w.sh, key, s);
    case SocketDestroyed(_, socket) => FieldsStay(s, s.(control := s.control.(dead := s.control.dead + {socket})));
    case ControlCloses(_) => FieldsStay(s, s.(control := CloseControl(s.control)));
  }

  lemma FieldsStay(s: Session, t: Session)
    requires t.profile == s.profile && t.terminated == s.terminated && t.parkedAs == s.parkedAs
    requires t.control.replies == s.control.replies
    ensures Stays(s, t)
  {
  }

  lemma RefreshedStays(sh: Shared, key: SessionKey, s: Session)
    requires MapsValid(sh.broker)
    ensures Stays(s, Close(sh, key, s.(drain := Idle)).1)
  {
    hide MapsValid, Close;
    CloseStays(sh, key, s.(drain := Idle));
  }

  lemma ExpiredStays(s: Session, f: FrameId)
    ensures Stays(s, s.(control := Release(s.control, f, Expiry).0))
  {
    ReleaseStays(s.control, f, Expiry);
    hide Release;
  }

  lemma SessionStepShape(w: World, step: Step)
    requires MapsValid(w.sh.broker) && Enabled(w, step) && SessionStep(step) && !step.SocketGone?
    ensures step.key in w.sessions && step.key in After(w, step).sessions
    ensures After(w, step).sessions == w.sessions[step.key := After(w, step).sessions[step.key]]
    ensures After(w, step).claims == w.claims && After(w, step).minted == w.minted
  {
    hide MapsValid, Close, Arrive, Loop, Release, CloseControl;
  }

  lemma SameGrows(w: World, w': World, step: Step)
    requires !step.ResumeCall? && w'.claims == w.claims && w.minted <= w'.minted
    requires forall k :: k in w.sessions ==> k in w'.sessions && w'.sessions[k] == w.sessions[k]
    requires forall k :: k in w'.sessions && k !in w.sessions ==> w'.sessions[k].parkedAs == map[]
    ensures Grows(w, w', step)
  {
    hide SessionGrows, NewClaim;
    forall k | k in w.sessions ensures SessionGrows(w.sessions[k], w'.sessions[k], k, step) {
      UntouchedGrows(w.sessions[k], k, step);
    }
  }

  lemma ContinuedGrows(w: World, b: State<Owner>, key: SessionKey, rid: string, pid: string,
      profile: Profile, text: string)
    requires key in w.sessions && pid !in w.claims
    requires Resolves(w, pid, profile)
    ensures var w1 := w.(sh := w.sh.(broker := b));
            Grows(w, With(w1, key, Continue(w1.sh, key, w.sessions[key], pid, rid, text))
                       .(used := w.used + {rid}, claims := w.claims[pid := (profile, text)]),
                  ClaimResult(rid, pid, profile, text))
  {
    hide Continue, Lasts, Resolves;
    var w1 := w.(sh := w.sh.(broker := b));
    ContinueStays(w1.sh, key, w.sessions[key], pid, rid, text);
    StaysGrows(w, With(w1, key, Continue(w1.sh, key, w.sessions[key], pid, rid, text)), key,
               Continue(w1.sh, key, w.sessions[key], pid, rid, text).1, ClaimResult(rid, pid, profile, text));
  }

  lemma ClaimGrows(w: World, rid: string, pid: string, profile: Profile, text: string)
    requires Valid(w.sh.broker) && IdsOk(w.sh.broker.publicIndex.items, w.minted, w.claims) && MapsValid(w.sh.broker)
    ensures Grows(w, AfterClaim(w, rid, pid, profile, text), ClaimResult(rid, pid, profile, text))
  {
    hide MapsValid, Valid, IdsOk, ClaimByPublicId, Continue, ContinueForeign, Grows;
    var (b, claim) := ClaimByPublicId(w.sh.broker, pid, Some(profile));
    ClaimIsExact(w.sh.broker, pid, Some(profile));
    if claim.outcome == OutResolved && claim.context.Some? && claim.context.value.ClaudeSession?
       && claim.context.value.key in w.sessions {
      LiveNotClaimed(w.sh.broker.publicIndex.items, w.minted, w.claims, pid);
      ContinuedGrows(w, b, claim.context.value.key, rid, pid, profile, text);
    } else {
      SameGrows(w, AfterClaim(w, rid, pid, profile, text), ClaimResult(rid, pid, profile, text));
    }
  }

  lemma CoreIds(w: World)
    requires Core(w)
    ensures IdsOk(w.sh.broker.publicIndex.items, w.minted, w.claims) && KeysOk(w.sessions, w.used)
    ensures |w.sh.byPublic| <= w.sh.maxLive && PublicOk(w.sh.byPublic, w.sessions) && ParkedApart(w.sessions)
    ensures SessionsOk(w.sessions, w.claims, w.minted)
  {
    hide EntriesOk, Valid, PublicOk, ForeignApart, RequestOk, IdsOk, ParkedApart, KeysOk, SessionsOk;
  }

  lemma ResumeGrows(w: World, key: SessionKey, pid: string)
    requires Core(w) && MapsValid(w.sh.broker) && Enabled(w, ResumeCall(key, pid))
    ensures Grows(w, After(w, ResumeCall(key, pid)), ResumeCall(key, pid))
  {
    hide Core, MapsValid, SessionGrows, SessionOk, Grows, Resume;
    CoreParts(w, key);
    ReadyNotParked(w.sessions[key], w.claims, w.minted);
    ParkGrows(w.sh, key, w.sessions[key], pid);
    OneGrows(w, After(w, ResumeCall(key, pid)), key, ResumeCall(key, pid));
  }

  lemma ReadyNotParked(s: Session, claims: map<string, (Profile, string)>, minted: set<string>)
    requires SessionOk(s, claims, minted) && s.handoff.Ready?
    ensures s.handoff.frame !in s.parkedAs
  {
    hide ControlOk, TextsClaimed, DrainOk;
  }

  lemma OpenOrBrokerGrows(w: World, step: Step)
    requires KeysOk(w.sessions, w.used) && MapsValid(w.sh.broker) && Enabled(w, step)
    requires step.Open? || step.RunReturns? || step.BrokerTtl? || step.OtherCreates? || step.OtherClaims?
        || step.OtherFails? || step.OtherCancels?
    ensures Grows(w, After(w, step), step)
  {
    hide MapsValid, Grows, KeysOk, Fail, Create, CancelScope, ClaimByPublicId;
    if step.Open? {
      UnusedIsNoSession(w.sessions, w.used, step.rid);
    }
    SameGrows(w, After(w, step), step);
  }

  lemma CancelGrows(w: World, rid: string)
    requires MapsValid(w.sh.broker) && Enabled(w, CancelRequest(rid))
    ensures Grows(w, After(w, CancelRequest(rid)), CancelRequest(rid))
  {
    hide MapsValid, Close, Grows, Stays;
    var key := w.sh.byRequest[rid];
    CloseStays(w.sh, key, w.sessions[key]);
    StaysGrows(w, After(w, CancelRequest(rid)), key, Close(w.sh, key, w.sessions[key]).1, CancelRequest(rid));
  }

  lemma StepGrows(w: World, step: Step)
    requires Core(w) && MapsValid(w.sh.broker) && Enabled(w, step)
    ensures Grows(w, After(w, step), step)
  {
    hide Core, MapsValid, Valid, EntriesOk, SessionOk, KeysOk, IdsOk, PublicOk, ParkedApart, SessionsOk, Grows, Stays,
        After, Enabled;
    CoreParts(w, "");
    CoreIds(w);
    match step
    case ResumeCall(key, pid) => ResumeGrows(w, key, pid);
    case CancelRequest(rid) => CancelGrows(w, rid);
    case ClaimResult(rid, pid, profile, text) => ClaimStepGrows(w, rid, pid, profile, text);
    case SocketGone(key, socket) => SocketStepGrows(w, key, socket);
    case _ =>
      if SessionStep(step) {
        PlainStepGrows(w, step);
      } else {
        OpenOrBrokerGrows(w, step);
      }
  }

  lemma PlainStepGrows(w: World, step: Step)
    requires MapsValid(w.sh.broker) && Enabled(w, step) && SessionStep(step) && !step.SocketGone?
    ensures Grows(w, After(w, step), step)
  {
    hide MapsValid, Grows, Stays, After, Enabled;
    SessionStepStays(w, step);
    SessionStepShape(w, step);
    StaysGrows(w, After(w, step), step.key, After(w, step).sessions[step.key], step);
  }

  lemma ClaimStepGrows(w: World, rid: string, pid: string, profile: Profile, text: string)
    requires Valid(w.sh.broker) && IdsOk(w.sh.broker.publicIndex.items, w.minted, w.claims) && MapsValid(w.sh.broker)
    requires Enabled(w, ClaimResult(rid, pid, profile, text))
    ensures Grows(w, After(w, ClaimResult(rid, pid, profile, text)), ClaimResult(rid, pid, profile, text))
  {
    hide Valid, IdsOk, MapsValid, Grows, AfterClaim;
    ClaimGrows(w, rid, pid, profile, text);
  }

  lemma SocketStepGrows(w: World, key: SessionKey, socket: Socket)
    requires MapsValid(w.sh.broker) && Enabled(w, SocketGone(key, socket))
    ensures Grows(w, After(w, SocketGone(key, socket)), SocketGone(key, socket))
  {
    hide MapsValid, Grows, Close;
    SocketGoneGrows(w, key, socket);
  }

  // ---- whole runs ----

  lemma FollowGrows(w: World, step: Step)
    requires Core(w)
    ensures Follow(w, step) == w || (MapsValid(w.sh.broker) && Enabled(w, step) && Grows(w, Follow(w, step), step))
  {
    hide Core, Grows, After, Enabled, MapsValid;
    CoreMaps(w);
    if Enabled(w, step) {
      StepGrows(w, step);
    }
  }

  /** The world just before step `i` of a run. */
  ghost function Before(maxLive: nat, maxPending: nat, steps: seq<Step>, i: nat): (w: World)
    requires i <= |steps|
    ensures Core(w)
  {
    Run(maxLive, maxPending, steps[..i])
  }

  lemma BeforeNext(maxLive: nat, maxPending: nat, steps: seq<Step>, i: nat)
    requires i < |steps|
    ensures Before(maxLive, maxPending, steps, i + 1) == Follow(Before(maxLive, maxPending, steps, i), steps[i])
  {
    hide Core, Follow;
    assert steps[..i + 1][..i] == steps[..i] && steps[..i + 1] != [];
  }

  /**
   * Step `i` parked frame `f` of session `k` under the fresh id `pid`: the frame had been handed to that very session.
   */
  ghost predicate ParkedAt(maxLive: nat, maxPending: nat, steps: seq<Step>, i: nat, k: SessionKey, f: FrameId,
      pid: string) {
    && i < |steps| && steps[i] == ResumeCall(k, pid)
    && var w, w' := Before(maxLive, maxPending, steps, i), Before(maxLive, maxPending, steps, i + 1);
       && k in w.sessions && w.sessions[k].handoff == Ready(f) && pid !in w.minted && pid in w'.minted
       && k in w'.sessions && w'.sessions[k].parked == Some(f) && w'.sessions[k].publicId == Some(pid)
  }

  /** Step `j` claimed `pid` under `profile` with `text`, and the broker resolved it. */
  ghost predicate ClaimedAt(maxLive: nat, maxPending: nat, steps: seq<Step>, j: nat, pid: string, profile: Profile,
      text: string) {
    && j < |steps| && steps[j].ClaimResult? && steps[j].pid == pid && steps[j].profile == profile
        && steps[j].text == text
    && var w, w' := Before(maxLive, maxPending, steps, j), Before(maxLive, maxPending, steps, j + 1);
       && Resolves(w, pid, profile)
       && pid !in w.claims && pid in w'.claims
  }

  /** A frame parked after a step was parked before, under the same id, or by this very step. */
  lemma ParkedBefore(w: World, step: Step, k: SessionKey, f: FrameId)
    requires Core(w) && k in Follow(w, step).sessions && f in Follow(w, step).sessions[k].parkedAs
    ensures k in w.sessions
    ensures f in w.sessions[k].parkedAs ==> Follow(w, step).sessions[k].parkedAs[f] == w.sessions[k].parkedAs[f]
    ensures f !in w.sessions[k].parkedAs ==>
              var t := Follow(w, step).sessions[k];
              && step == ResumeCall(k, t.parkedAs[f]) && w.sessions[k].handoff == Ready(f)
              && t.parkedAs[f] !in w.minted && t.parkedAs[f] in Follow(w, step).minted
              && t.parked == Some(f) && t.publicId == Some(t.parkedAs[f])
  {
    hide Core, MapsValid, Follow, Lasts, NewClaim;
    FollowGrows(w, step);
    var w' := Follow(w, step);
    assert k in w.sessions;
    assert w' == w || SessionGrows(w.sessions[k], w'.sessions[k], k, step);
  }

  /** A claim known after a step was known before, or is this very step's. */
  lemma ClaimedBefore(w: World, step: Step, pid: string)
    requires Core(w) && pid in Follow(w, step).claims
    ensures pid in w.claims ==> Follow(w, step).claims[pid] == w.claims[pid]
    ensures pid !in w.claims ==> NewClaim(w, Follow(w, step), pid, step)
  {
    hide Core, MapsValid, Enabled, Follow, SessionGrows, NewClaim;
    FollowGrows(w, step);
  }

  lemma {:induction false} ParkingHappened(maxLive: nat, maxPending: nat, steps: seq<Step>, k: SessionKey, f: FrameId)
    requires var w := Run(maxLive, maxPending, steps); k in w.sessions && f in w.sessions[k].parkedAs
    ensures exists i: nat :: ParkedAt(maxLive, maxPending, steps, i, k, f,
        Run(maxLive, maxPending, steps).sessions[k].parkedAs[f])
    decreases |steps|
  {
    hide Core, Follow, Before, ParkedAt;
    if steps == [] {
      NothingAtTheStart(maxLive, maxPending);
    } else {
      var n := |steps| - 1;
      var w, w' := Run(maxLive, maxPending, steps[..n]), Run(maxLive, maxPending, steps);
      ParkedBefore(w, steps[n], k, f);
      BeforeEnd(maxLive, maxPending, steps);
      if f in w.sessions[k].parkedAs {
        ParkingHappened(maxLive, maxPending, steps[..n], k, f);
        var i: nat :| ParkedAt(maxLive, maxPending, steps[..n], i, k, f, w.sessions[k].parkedAs[f]);
        ParkedAtLonger(maxLive, maxPending, steps, i, k, f, w.sessions[k].parkedAs[f]);
      } else {
        ParkedLast(maxLive, maxPending, steps, k, f, w'.sessions[k].parkedAs[f]);
      }
    }
  }

  lemma NothingAtTheStart(maxLive: nat, maxPending: nat)
    ensures Run(maxLive, maxPending, []).sessions == map[] && Run(maxLive, maxPending, []).claims == map[]
  {
    hide Core, Follow;
  }

  lemma ParkedLast(maxLive: nat, maxPending: nat, steps: seq<Step>, k: SessionKey, f: FrameId, pid: string)
    requires steps != [] && steps[|steps| - 1] == ResumeCall(k, pid)
    requires var w, w' := Before(maxLive, maxPending, steps, |steps| - 1), Before(maxLive, maxPending, steps, |steps|);
             && k in w.sessions && w.sessions[k].handoff == Ready(f) && pid !in w.minted && pid in w'.minted
             && k in w'.sessions && w'.sessions[k].parked == Some(f) && w'.sessions[k].publicId == Some(pid)
    ensures ParkedAt(maxLive, maxPending, steps, |steps| - 1, k, f, pid)
  {
    hide Core, Before;
  }

  lemma ParkedAtLonger(maxLive: nat, maxPending: nat, steps: seq<Step>, i: nat, k: SessionKey, f: FrameId, pid: string)
    requires steps != [] && ParkedAt(maxLive, maxPending, steps[..|steps| - 1], i, k, f, pid)
    ensures ParkedAt(maxLive, maxPending, steps, i, k, f, pid)
  {
    hide Core, Before;
    BeforeWithin(maxLive, maxPending, steps, i);
    BeforeWithin(maxLive, maxPending, steps, i + 1);
  }

  lemma ClaimedAtLonger(maxLive: nat, maxPending: nat, steps: seq<Step>, j: nat, pid: string,
      profile: Profile, text: string)
    requires steps != [] && ClaimedAt(maxLive, maxPending, steps[..|steps| - 1], j, pid, profile, text)
    ensures ClaimedAt(maxLive, maxPending, steps, j, pid, profile, text)
  {
    hide Core, Before, Resolves;
    BeforeWithin(maxLive, maxPending, steps, j);
    BeforeWithin(maxLive, maxPending, steps, j + 1);
  }

  lemma ClaimedLast(maxLive: nat, maxPending: nat, steps: seq<Step>, pid: string)
    requires steps != []
    requires var w, w' := Before(maxLive, maxPending, steps, |steps| - 1), Before(maxLive, maxPending, steps, |steps|);
             pid !in w.claims && NewClaim(w, w', pid, steps[|steps| - 1])
    ensures var w' := Before(maxLive, maxPending, steps, |steps|);
            pid in w'.claims && ClaimedAt(maxLive, maxPending, steps, |steps| - 1, pid, w'.claims[pid].0,
                w'.claims[pid].1)
  {
    hide Core, Before, Resolves;
  }

  lemma BeforeWithin(maxLive: nat, maxPending: nat, steps: seq<Step>, i: nat)
    requires i < |steps|
    ensures Before(maxLive, maxPending, steps, i) == Before(maxLive, maxPending, steps[..|steps| - 1], i)
  {
    hide Core;
    assert steps[..|steps| - 1][..i] == steps[..i];
  }

  lemma BeforeEnd(maxLive: nat, maxPending: nat, steps: seq<Step>)
    requires steps != []
    ensures Before(maxLive, maxPending, steps, |steps| - 1) == Run(maxLive, maxPending, steps[..|steps| - 1])
    ensures Before(maxLive, maxPending, steps, |steps|) == Run(maxLive, maxPending, steps)
  {
    hide Core, Run;
    assert steps[..|steps|] == steps;
  }

  lemma {:induction false} ClaimHappened(maxLive: nat, maxPending: nat, steps: seq<Step>, pid: string)
    requires pid in Run(maxLive, maxPending, steps).claims
    ensures var c := Run(maxLive, maxPending, steps).claims[pid];
            exists j: nat :: ClaimedAt(maxLive, maxPending, steps, j, pid, c.0, c.1)
    decreases |steps|
  {
    hide Core, Follow, Before, NewClaim, ClaimedAt;
    if steps == [] {
      NothingAtTheStart(maxLive, maxPending);
    } else {
      var n := |steps| - 1;
      var w, w' := Run(maxLive, maxPending, steps[..n]), Run(maxLive, maxPending, steps);
      ClaimedBefore(w, steps[n], pid);
      BeforeEnd(maxLive, maxPending, steps);
      if pid in w.claims {
        ClaimHappened(maxLive, maxPending, steps[..n], pid);
        var c := w.claims[pid];
        var j: nat :| ClaimedAt(maxLive, maxPending, steps[..n], j, pid, c.0, c.1);
        ClaimedAtLonger(maxLive, maxPending, steps, j, pid, c.0, c.1);
      } else {
        ClaimedLast(maxLive, maxPending, steps, pid);
      }
    }
  }

  lemma {:induction false} TapesStay(maxLive: nat, maxPending: nat, steps: seq<Step>, i: nat, j: nat)
    requires i <= j <= |steps|
    ensures Before(maxLive, maxPending, steps, i).minted <= Before(maxLive, maxPending, steps, j).minted
    ensures forall p :: p in Before(maxLive, maxPending, steps, i).claims ==>
        p in Before(maxLive, maxPending, steps, j).claims
    decreases j
  {
    hide Core, MapsValid, Enabled, Follow, SessionGrows, NewClaim, Before;
    if i < j {
      TapesStay(maxLive, maxPending, steps, i, j - 1);
      BeforeNext(maxLive, maxPending, steps, j - 1);
      FollowGrows(Before(maxLive, maxPending, steps, j - 1), steps[j - 1]);
    }
  }

  /** A public id is claimed only after it was minted. */
  lemma ClaimFollowsParking(maxLive: nat, maxPending: nat, steps: seq<Step>, i: nat, j: nat, k: SessionKey, f: FrameId,
                            pid: string, profile: Profile, text: string)
    requires ParkedAt(maxLive, maxPending, steps, i, k, f, pid)
        && ClaimedAt(maxLive, maxPending, steps, j, pid, profile, text)
    ensures i < j
  {
    hide Core, Before;
    if j <= i {
      TapesStay(maxLive, maxPending, steps, j, i);
      CoreIds(Before(maxLive, maxPending, steps, j));
      hide PublicOk, ParkedApart, SessionsOk, KeysOk;
      assert false;
    }
  }

  // ---- the results ----

  ghost predicate AnswersApart(c: Control) {
    forall a, b :: 0 <= a < b < |c.replies| ==> c.replies[a].frame != c.replies[b].frame
  }

  lemma AnswersApartIn(s: Session, claims: map<string, (Profile, string)>, minted: set<string>)
    requires SessionOk(s, claims, minted)
    ensures AnswersApart(s.control) && TextsClaimed(s, claims)
  {
    hide DrainOk, FramesOk, TextsClaimed;
  }

  /** In every run, no control frame is answered twice. */
  lemma AnsweredAtMostOnce(maxLive: nat, maxPending: nat, steps: seq<Step>)
    ensures forall k :: k in Run(maxLive, maxPending, steps).sessions ==>
              AnswersApart(Run(maxLive, maxPending, steps).sessions[k].control)
  {
    hide Core, Run, SessionOk, TextsClaimed, AnswersApart;
    var w := Run(maxLive, maxPending, steps);
    forall k | k in w.sessions ensures AnswersApart(w.sessions[k].control) {
      CoreParts(w, k);
      AnswersApartIn(w.sessions[k], w.claims, w.minted);
    }
  }

  /**
   * In every run, a result text written to a frame was claimed under the session's own profile, for
   * the public id minted when that very frame was parked in that very session, after it was parked.
   */
  lemma TextIsTheClaimedResult(maxLive: nat, maxPending: nat, steps: seq<Step>, k: SessionKey, n: nat)
    requires var w := Run(maxLive, maxPending, steps);
             k in w.sessions && n < |w.sessions[k].control.replies| && w.sessions[k].control.replies[n].body.Text?
    ensures var s := Run(maxLive, maxPending, steps).sessions[k];
            var reply := s.control.replies[n];
            exists i: nat, j: nat, pid :: i < j
              && ParkedAt(maxLive, maxPending, steps, i, k, reply.frame, pid)
              && ClaimedAt(maxLive, maxPending, steps, j, pid, s.profile, reply.body.text)
  {
    hide Core, Run, SessionOk, ParkedAt, ClaimedAt;
    var w := Run(maxLive, maxPending, steps);
    var s := w.sessions[k];
    CoreParts(w, k);
    AnswersApartIn(s, w.claims, w.minted);
    assert TextClaimed(s, w.claims, s.control.replies[n]);
    var f := s.control.replies[n].frame;
    var pid := s.parkedAs[f];
    ParkingHappened(maxLive, maxPending, steps, k, f);
    ClaimHappened(maxLive, maxPending, steps, pid);
    var i: nat :| ParkedAt(maxLive, maxPending, steps, i, k, f, pid);
    var j: nat :| ClaimedAt(maxLive, maxPending, steps, j, pid, s.profile, s.control.replies[n].body.text);
    ClaimFollowsParking(maxLive, maxPending, steps, i, j, k, f, pid, s.profile, s.control.replies[n].body.text);
  }

  /**
   * One claim per public id, and one parked frame: the claim and the parking of the theorem above are the only ones.
   */
  lemma ClaimedOnceParkedOnce(maxLive: nat, maxPending: nat, steps: seq<Step>, pid: string)
    ensures forall j: nat, j': nat, c: (Profile, string), c': (Profile, string) |
              ClaimedAt(maxLive, maxPending, steps, j, pid, c.0, c.1)
                  && ClaimedAt(maxLive, maxPending, steps, j', pid, c'.0, c'.1) ::
              j == j' && c == c'
    ensures forall i: nat, i': nat, k, k', f, f' |
              ParkedAt(maxLive, maxPending, steps, i, k, f, pid)
                  && ParkedAt(maxLive, maxPending, steps, i', k', f', pid) ::
              i == i' && k == k' && f == f'
  {
    hide Core, Before, Resolves;
    forall j: nat, j': nat, c: (Profile, string), c': (Profile, string) |
      ClaimedAt(maxLive, maxPending, steps, j, pid, c.0, c.1)
          && ClaimedAt(maxLive, maxPending, steps, j', pid, c'.0, c'.1)
      ensures j == j' && c == c'
    {
      if j < j' {
        TapesStay(maxLive, maxPending, steps, j + 1, j');
      } else if j' < j {
        TapesStay(maxLive, maxPending, steps, j' + 1, j);
      }
    }
    forall i: nat, i': nat, k, k', f, f' |
      ParkedAt(maxLive, maxPending, steps, i, k, f, pid) && ParkedAt(maxLive, maxPending, steps, i', k', f', pid)
      ensures i == i' && k == k' && f == f'
    {
      if i < i' {
        TapesStay(maxLive, maxPending, steps, i + 1, i');
      } else if i' < i {
        TapesStay(maxLive, maxPending, steps, i' + 1, i);
      }
    }
  }

  /**
   * In every run the public map and the sessions name each other, one to one, and at most `maxLive` calls are parked.
   */
  lemma PublicIdsAreTwoWay(maxLive: nat, maxPending: nat, steps: seq<Step>)
    ensures var w := Run(maxLive, maxPending, steps);
            && |w.sh.byPublic| <= maxLive
            && (forall p, k | k in w.sessions :: (p in w.sh.byPublic && w.sh.byPublic[p] == k) <==>
                w.sessions[k].publicId == Some(p))
            && (forall p :: p in w.sh.byPublic ==> w.sh.byPublic[p] in w.sessions)
  {
    hide Core, Run, SessionsOk, IdsOk, KeysOk, ParkedApart;
    CoreIds(Run(maxLive, maxPending, steps));
    SameBound(maxLive, maxPending, steps);
  }

  lemma {:induction false} SameBound(maxLive: nat, maxPending: nat, steps: seq<Step>)
    ensures Run(maxLive, maxPending, steps).sh.maxLive == maxLive
    decreases |steps|
  {
    hide Core, Follow;
    if steps != [] {
      SameBound(maxLive, maxPending, steps[..|steps| - 1]);
      BoundStays(Run(maxLive, maxPending, steps[..|steps| - 1]), steps[|steps| - 1]);
    }
  }

  lemma BoundStays(w: World, step: Step)
    requires Core(w)
    ensures Follow(w, step).sh.maxLive == w.sh.maxLive
  {
    hide Core, MapsValid, Enabled, Arrive, Release, DropSocket, CloseControl, Loop, Create, Fail, CancelScope,
        ClaimByPublicId;
    CoreMaps(w);
  }

  /** In every run a session has at most two pending frames, so the control server's own bound is never reached. */
  lemma PendingFramesAreFew(maxLive: nat, maxPending: nat, steps: seq<Step>, k: SessionKey, f: FrameId, socket: Socket)
    requires k in Run(maxLive, maxPending, steps).sessions
    ensures |Run(maxLive, maxPending, steps).sessions[k].control.pending| <= 2
    ensures Admit(Run(maxLive, maxPending, steps).sessions[k].control, f, socket).1 != Bounded
  {
    hide Core, Run, SessionOk;
    var w := Run(maxLive, maxPending, steps);
    CoreParts(w, k);
    AtMostTwoPending(w.sessions[k], w.claims, w.minted);
  }

  /**
   * In every run a session with a parked call has its gate shut, its deadline set, its public id set and its drain
   * ended.
   */
  lemma ParkedCallIsGuarded(maxLive: nat, maxPending: nat, steps: seq<Step>, k: SessionKey)
    requires k in Run(maxLive, maxPending, steps).sessions && Run(maxLive, maxPending, steps).sessions[k].parked.Some?
    ensures var s := Run(maxLive, maxPending, steps).sessions[k];
            s.gate && s.ttl && s.publicId.Some? && s.drain == Idle && s.handoff == NoPromise
  {
    hide Core, Run, ControlOk, TextsClaimed, FramesOk;
    CoreParts(Run(maxLive, maxPending, steps), k);
  }

  /** While a call is parked, another one is refused on the spot and leaves the parked one alone. */
  lemma ConcurrentCallIsRefused(maxLive: nat, maxPending: nat, steps: seq<Step>, k: SessionKey, f: FrameId,
      socket: Socket)
    requires var w := Run(maxLive, maxPending, steps);
             k in w.sessions && w.sessions[k].parked.Some? && f !in w.sessions[k].seen
                 && socket !in w.sessions[k].control.dead
    ensures var s := Run(maxLive, maxPending, steps).sessions[k];
            Arrive(s, f, socket) == s.(seen := s.seen + {f},
                control := s.control.(replies := s.control.replies + [Reply(f, Refused)]))
  {
    hide Core, Run, SessionOk, TextsClaimed, Admit, Release;
    var w := Run(maxLive, maxPending, steps);
    var s := w.sessions[k];
    CoreParts(w, k);
    ServerBoundUnreachable(s, f, socket, w.claims, w.minted);
    ParkedCallIsGuarded(maxLive, maxPending, steps, k);
    AdmittedThenReleased(s, f, socket, w.claims, w.minted);
  }

  lemma AdmittedThenReleased(s: Session, f: FrameId, socket: Socket, claims: map<string, (Profile, string)>,
      minted: set<string>)
    requires SessionOk(s, claims, minted) && f !in s.seen && socket !in s.control.dead
    ensures var (c, admission) := Admit(s.control, f, socket);
            admission == Accepted
                && Release(c, f, Refused).0 == s.control.(replies := s.control.replies + [Reply(f, Refused)])
  {
    hide SessionOk;
    AtMostTwoPending(s, claims, minted);
    NewIsNotPending(s, f, claims, minted);
    assert s.control.pending[f := socket] - {f} == s.control.pending;
  }

  lemma NewIsNotPending(s: Session, f: FrameId, claims: map<string, (Profile, string)>, minted: set<string>)
    requires SessionOk(s, claims, minted) && f !in s.seen
    ensures f !in s.control.pending
  {
    hide TextsClaimed, DrainOk, FramesOk;
  }

  // ---- what terminated sessions leave behind ----

  /** No step of the run parks a call of a session that has already terminated. */
  ghost predicate NoLatePark(maxLive: nat, maxPending: nat, steps: seq<Step>) {
    forall i :: 0 <= i < |steps| ==> !LateAt(maxLive, maxPending, steps, i)
  }

  ghost predicate LateAt(maxLive: nat, maxPending: nat, steps: seq<Step>, i: nat)
    requires i < |steps|
  {
    MapsValid(Before(maxLive, maxPending, steps, i).sh.broker)
        && LatePark(Before(maxLive, maxPending, steps, i), steps[i])
  }

  lemma FollowRetires(w: World, step: Step)
    requires Core(w) && MapsValid(w.sh.broker) && TerminatedAreRetired(w)
    ensures TerminatedAreRetired(Follow(w, step)) <==> !LatePark(w, step)
  {
    hide Core, MapsValid, Enabled, After, TerminatedAreRetired;
    if Enabled(w, step) {
      StepKeeps(w, step);
    } else {
      assert !LatePark(w, step) by { hide Core, MapsValid, Enabled, After; }
    }
  }

  /** Every prefix of a run leaves its terminated sessions unreferenced, exactly when no step parks late. */
  lemma {:induction false} TerminatedLeavesNothing(maxLive: nat, maxPending: nat, steps: seq<Step>)
    ensures NoLatePark(maxLive, maxPending, steps)
            <==> forall i: nat | i <= |steps| :: TerminatedAreRetired(Before(maxLive, maxPending, steps, i))
    decreases |steps|
  {
    hide Core, Before, TerminatedAreRetired, LatePark;
    if steps == [] {
      BeforeStart(maxLive, maxPending, steps);
    } else {
      var n := |steps| - 1;
      var shorter := steps[..n];
      TerminatedLeavesNothing(maxLive, maxPending, shorter);
      forall i: nat | i <= n ensures Before(maxLive, maxPending, steps, i) == Before(maxLive, maxPending, shorter, i) {
        BeforeWithin(maxLive, maxPending, steps, i);
      }
      assert forall i :: 0 <= i < n ==>
          LateAt(maxLive, maxPending, steps, i) == LateAt(maxLive, maxPending, shorter, i);
      BeforeNext(maxLive, maxPending, steps, n);
      var w := Before(maxLive, maxPending, steps, n);
      CoreMaps(w);
      if TerminatedAreRetired(w) {
        FollowRetires(w, steps[n]);
        if NoLatePark(maxLive, maxPending, steps) {
          assert !LateAt(maxLive, maxPending, steps, n);
        }
        assert NoLatePark(maxLive, maxPending, steps) <==>
            NoLatePark(maxLive, maxPending, shorter) && !LateAt(maxLive, maxPending, steps, n);
        assert TerminatedAreRetired(Before(maxLive, maxPending, steps, n + 1)) <==>
            !LateAt(maxLive, maxPending, steps, n);
      } else {
        assert !TerminatedAreRetired(Before(maxLive, maxPending, shorter, n));
        assert exists i :: 0 <= i < n && LateAt(maxLive, maxPending, shorter, i);
      }
    }
  }

  lemma BeforeStart(maxLive: nat, maxPending: nat, steps: seq<Step>)
    ensures TerminatedAreRetired(Before(maxLive, maxPending, steps, 0))
  {
    hide Core, TerminatedAreRetired;
    StartIsCore(maxLive, maxPending);
  }

  // ---- delivery ----

  /**
   * The call parked in session `k` is still alive everywhere: in the broker, under its public id, and on an open
   * socket.
   */
  ghost predicate Deliverable(w: World, k: SessionKey, f: FrameId, pid: string) {
    && k in w.sessions && w.sessions[k].parked == Some(f) && w.sessions[k].publicId == Some(pid)
    && f in w.sessions[k].control.pending && w.sessions[k].control.pending[f] !in w.sessions[k].control.dead
    && pid in w.sh.broker.publicIndex.items && w.sh.broker.publicIndex.items[pid] in w.sh.broker.entries.items
    && w.sh.broker.entries.items[w.sh.broker.publicIndex.items[pid]].context == Some(ClaudeSession(k))
  }

  /** What the continuation request brings about in session `k`. */
  ghost predicate Delivered(w: World, w': World, k: SessionKey, f: FrameId, pid: string, rid: string, text: string) {
    && k in w.sessions && k in w'.sessions
    && w'.sessions[k].control.replies == w.sessions[k].control.replies + [Reply(f, Text(text))]
    && !w'.sessions[k].gate && !w'.sessions[k].ttl && w'.sessions[k].parked == None && w'.sessions[k].publicId == None
    && w'.sessions[k].requestId == rid && rid in w'.sh.byRequest && w'.sh.byRequest[rid] == k
    && pid !in w'.sh.byPublic && pid !in w'.sh.broker.publicIndex.items
  }

  lemma ContinueDelivers(sh: Shared, k: SessionKey, s: Session, f: FrameId, pid: string, rid: string, text: string)
    requires s.parked == Some(f) && f in s.control.pending && s.control.pending[f] !in s.control.dead
    ensures var (sh', t) := Continue(sh, k, s, pid, rid, text);
            && t.control.replies == s.control.replies + [Reply(f, Text(text))]
            && !t.gate && !t.ttl && t.parked == None && t.publicId == None && t.requestId == rid
            && rid in sh'.byRequest && sh'.byRequest[rid] == k && pid !in sh'.byPublic && sh'.broker == sh.broker
  {
  }

  /**
   * A claim under the session's own profile answers exactly the parked frame and reopens the gate; under any other it
   * changes nothing at all.
   */
  lemma ClaimDelivers(w: World, k: SessionKey, f: FrameId, rid: string, pid: string, profile: Profile, text: string)
    requires Core(w) && MapsValid(w.sh.broker) && Deliverable(w, k, f, pid)
    ensures profile == w.sessions[k].profile ==>
        Delivered(w, AfterClaim(w, rid, pid, profile, text), k, f, pid, rid, text)
    ensures profile != w.sessions[k].profile ==> AfterClaim(w, rid, pid, profile, text) == w
  {
    hide Core, Valid, MapsValid, EntriesOk, SessionOk, Continue, ClaimByPublicId;
    CoreParts(w, k);
    ClaimNamesItsSession(w, pid, k);
    ClaimIsExact(w.sh.broker, pid, Some(profile));
    ContinueDelivers(w.sh.(broker := ClaimByPublicId(w.sh.broker, pid, Some(profile)).0), k, w.sessions[k], f,
        pid, rid, text);
  }

  // ---- two runs that do happen ----

  /** A session that is racing for a hand-off, a frame that arrives, and the call it is about to park. */
  function Handing(profile: Profile, terminated: bool): Session {
    NewSession("r", profile).(drain := Resuming, handoff := Ready("f"), terminated := terminated,
                              control := Control(map["f" := 0], {}, false, []), seen := {"f"})
  }

  function Opened(maxLive: nat, maxPending: nat, s: Session, byRequest: map<string, SessionKey>): World {
    World(Shared(Initial(maxPending), map[], byRequest, maxLive), map["r" := s], {"r"}, {}, map[])
  }

  lemma ArrivesAtRacing(profile: Profile, terminated: bool)
    ensures Arrive(NewSession("r", profile).(drain := Racing, handoff := Waiting, terminated := terminated), "f", 0)
            == Handing(profile, terminated)
  {
  }

  lemma RunOnce(maxLive: nat, maxPending: nat, steps: seq<Step>, step: Step)
    ensures Run(maxLive, maxPending, steps + [step]) == Follow(Run(maxLive, maxPending, steps), step)
  {
    hide Core, Follow;
    assert (steps + [step])[..|steps + [step]| - 1] == steps;
  }

  lemma RacingRun(maxLive: nat, maxPending: nat, profile: Profile)
    ensures Run(maxLive, maxPending, [Open("r", profile), LoopTop("r")])
            == Opened(maxLive, maxPending, NewSession("r", profile).(drain := Racing, handoff := Waiting),
                map["r" := "r"])
  {
    hide Core;
    RunOnce(maxLive, maxPending, [], Open("r", profile));
    RunOnce(maxLive, maxPending, [Open("r", profile)], LoopTop("r"));
    assert [] + [Open("r", profile)] == [Open("r", profile)];
    assert [Open("r", profile)] + [LoopTop("r")] == [Open("r", profile), LoopTop("r")];
    CoreMaps(Start(maxLive, maxPending));
    var w1 := Opened(maxLive, maxPending, NewSession("r", profile), map["r" := "r"]);
    assert Next(Start(maxLive, maxPending), Open("r", profile)) == w1;
    CoreMaps(w1);
  }

  lemma CancelsTheFirst(maxLive: nat, maxPending: nat, s: Session)
    requires s.requestId == "r" && !s.terminated && s.parked == None && s.publicId == None && !s.ttl
    ensures MapsValid(Initial<Owner>(maxPending))
    ensures Next(Opened(maxLive, maxPending, s, map["r" := "r"]), CancelRequest("r"))
         == Opened(maxLive, maxPending, s.(terminated := true), map[])
  {
    var w, w1 := Opened(maxLive, maxPending, s, map["r" := "r"]),
        Opened(maxLive, maxPending, s.(terminated := true), map[]);
    assert CancelScope(Initial<Owner>(maxPending), ScopeOf("r")) == Initial(maxPending);
    assert Close(w.sh, "r", s) == (w1.sh, w1.sessions["r"]);
    hide Close, CancelScope;
    assert w.sessions["r" := w1.sessions["r"]] == w1.sessions;
  }

  lemma CancelledRun(maxLive: nat, maxPending: nat, profile: Profile)
    ensures Run(maxLive, maxPending, [Open("r", profile), LoopTop("r"), CancelRequest("r"), Frame("r", "f", 0)])
            == Opened(maxLive, maxPending, Handing(profile, true), map[])
  {
    hide Core, Arrive;
    var racing := NewSession("r", profile).(drain := Racing, handoff := Waiting);
    var w := Opened(maxLive, maxPending, racing, map["r" := "r"]);
    RacingRun(maxLive, maxPending, profile);
    var steps := [Open("r", profile), LoopTop("r")];
    RunOnce(maxLive, maxPending, steps, CancelRequest("r"));
    RunOnce(maxLive, maxPending, steps + [CancelRequest("r")], Frame("r", "f", 0));
    assert steps + [CancelRequest("r")] + [Frame("r", "f", 0)]
        == [Open("r", profile), LoopTop("r"), CancelRequest("r"), Frame("r", "f", 0)];
    CoreMaps(w);
    var w1 := Opened(maxLive, maxPending, racing.(terminated := true), map[]);
    CancelsTheFirst(maxLive, maxPending, racing);
    CoreMaps(w1);
    ArrivesAtRacing(profile, true);
  }

  lemma FirstParkPasses(maxLive: nat, maxPending: nat, profile: Profile, terminated: bool,
      byRequest: map<string, SessionKey>)
    requires maxLive > 0 && maxPending > 0
    ensures MapsValid(Initial<Owner>(maxPending))
    ensures Parks(Opened(maxLive, maxPending, Handing(profile, terminated), byRequest).sh, "r",
        Handing(profile, terminated), "p")
  {
    InitialIsValid<Owner>(maxPending);
    hide Valid;
    assert KeyOf(KeyFor("r", Handing(profile, terminated), "p")).Ok?;
  }

  /**
   * A frame that arrives between the cancel and the drain's next look at the abort flag is parked for a dead session.
   */
  lemma LateParkHappens(maxLive: nat, maxPending: nat, profile: Profile)
    requires maxLive > 0 && maxPending > 0
    ensures !TerminatedAreRetired(Run(maxLive, maxPending,
              [Open("r", profile), LoopTop("r"), CancelRequest("r"), Frame("r", "f", 0), ResumeCall("r", "p")]))
  {
    hide Core, Parks, Follow;
    CancelledRun(maxLive, maxPending, profile);
    FirstParkPasses(maxLive, maxPending, profile, true, map[]);
    var steps := [Open("r", profile), LoopTop("r"), CancelRequest("r"), Frame("r", "f", 0)];
    RunOnce(maxLive, maxPending, steps, ResumeCall("r", "p"));
    assert steps + [ResumeCall("r", "p")]
        == [Open("r", profile), LoopTop("r"), CancelRequest("r"), Frame("r", "f", 0), ResumeCall("r", "p")];
    var w := Run(maxLive, maxPending, steps);
    assert Retired("r", w.sessions["r"], w.sh);
    FollowRetires(w, ResumeCall("r", "p"));
  }

  lemma ArrivedRun(maxLive: nat, maxPending: nat, profile: Profile)
    ensures Run(maxLive, maxPending, [Open("r", profile), LoopTop("r"), Frame("r", "f", 0)])
            == Opened(maxLive, maxPending, Handing(profile, false), map["r" := "r"])
  {
    hide Core, Arrive;
    var w := Opened(maxLive, maxPending, NewSession("r", profile).(drain := Racing, handoff := Waiting),
        map["r" := "r"]);
    RacingRun(maxLive, maxPending, profile);
    var steps := [Open("r", profile), LoopTop("r")];
    RunOnce(maxLive, maxPending, steps, Frame("r", "f", 0));
    assert steps + [Frame("r", "f", 0)] == [Open("r", profile), LoopTop("r"), Frame("r", "f", 0)];
    CoreMaps(w);
    ArrivesAtRacing(profile, false);
  }

  lemma FirstParkIsDeliverable(w: World, profile: Profile)
    requires Core(w) && MapsValid(w.sh.broker) && w.sessions == map["r" := Handing(profile, false)] && w.minted == {}
    requires Parks(w.sh, "r", Handing(profile, false), "p")
    ensures Deliverable(Next(w, ResumeCall("r", "p")), "r", "f", "p")
    ensures Next(w, ResumeCall("r", "p")).sessions["r"] == ParkedSession(Handing(profile, false), "p")
  {
    hide Core, Valid, MapsValid, EntriesOk, SessionOk, Parks, Create, Resume, KeyOf, Compose, Retired;
    CoreParts(w, "r");
    var s := Handing(profile, false);
    ParkAccepts(w.sh, "r", s, "p");
    CreateEffect(w.sh.broker, KeyFor("r", s, "p"), Some(ClaudeSession("r")));
  }

  /** A call that is parked across two requests does get its result. */
  lemma ResultArrives(maxLive: nat, maxPending: nat, profile: Profile, text: string)
    requires maxLive > 0 && maxPending > 0
    ensures var w := Run(maxLive, maxPending, [Open("r", profile), LoopTop("r"), Frame("r", "f", 0),
                                               ResumeCall("r", "p"), ClaimResult("q", "p", profile, text)]);
            "r" in w.sessions && w.sessions["r"].control.replies == [Reply("f", Text(text))]
  {
    hide Core, Parks, Resume, AfterClaim;
    ArrivedRun(maxLive, maxPending, profile);
    FirstParkPasses(maxLive, maxPending, profile, false, map["r" := "r"]);
    var steps := [Open("r", profile), LoopTop("r"), Frame("r", "f", 0)];
    RunOnce(maxLive, maxPending, steps, ResumeCall("r", "p"));
    RunOnce(maxLive, maxPending, steps + [ResumeCall("r", "p")], ClaimResult("q", "p", profile, text));
    assert steps + [ResumeCall("r", "p")] + [ClaimResult("q", "p", profile, text)]
        == [Open("r", profile), LoopTop("r"), Frame("r", "f", 0), ResumeCall("r", "p"),
            ClaimResult("q", "p", profile, text)];
    var w := Run(maxLive, maxPending, steps);
    CoreMaps(w);
    FirstParkIsDeliverable(w, profile);
    var w1 := Follow(w, ResumeCall("r", "p"));
    CoreMaps(w1);
    ClaimDelivers(w1, "r", "f", "q", "p", profile, text);
  }
}
