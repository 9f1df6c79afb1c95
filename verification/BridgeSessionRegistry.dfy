/**
 * One process's registry as the object it is, working on the shared directory without interference;
 * and the proof that such an uninterrupted registration is a run of the step system. What other
 * processes can do in between is the matter of `SessionRegistry`, and why a descriptor goes that of
 * `DescriptorFates`.
 */
module BridgeSessionRegistries {
  import opened Options
  import opened SessionRegistry

  /** The answers of the operating system during one registration. */
  datatype Observed = Observed(alive: set<Pid>, sockets: set<Pid>)

  predicate Kept(files: map<Pid, Content>, o: Observed, live: set<Pid>, pid: Pid) {
    pid in live || Usable(files, pid, pid in o.alive, pid in o.sockets)
  }

  function Reconciled(files: map<Pid, Content>, o: Observed, live: set<Pid>): map<Pid, Content> {
    map pid | pid in files && Kept(files, o, live, pid) :: files[pid]
  }

  class Directory {
    var files: map<Pid, Content>
    var temps: map<string, Content>
    var lock: bool

    constructor ()
      ensures files == map[] && temps == map[] && !lock
    {
      files, temps, lock := map[], map[], false;
    }
  }

  class BridgeSessionRegistry {
    const maxLive: nat
    const dir: Directory
    var live: map<Pid, string>

    constructor (dir: Directory, maxLive: nat := 64)
      ensures this.dir == dir && this.maxLive == maxLive && live == map[]
    {
      this.dir, this.maxLive, live := dir, maxLive, map[];
    }

    /** Deletes every descriptor that cannot belong to a live run, and returns the owners that survive. */
    method ReconcileOnDisk(o: Observed) returns (surviving: set<Pid>)
      modifies dir`files
      ensures dir.files == Reconciled(old(dir.files), o, live.Keys)
      ensures surviving == live.Keys + dir.files.Keys
    {
      surviving := live.Keys;
      var todo := dir.files.Keys;
      while todo != {}
        invariant todo <= dir.files.Keys
        invariant dir.files == map pid | pid in old(dir.files)
            && (pid in todo || Kept(old(dir.files), o, live.Keys, pid)) :: old(dir.files)[pid]
        invariant surviving == live.Keys + (dir.files.Keys - todo)
        decreases todo
      {
        var pid :| pid in todo;
        todo := todo - {pid};
        if pid !in live {
          var content := dir.files[pid];
          if content.Garbage? || content.descriptor.agyPid != pid || pid !in o.alive || pid !in o.sockets {
            dir.files := dir.files - {pid};
          } else {
            surviving := surviving + {pid};
          }
        }
      }
    }

    method RemoveAbandonedTempFiles()
      modifies dir`temps
      ensures dir.temps == map[]
    {
      var todo := dir.temps.Keys;
      while todo != {}
        invariant dir.temps.Keys == todo
        decreases todo
      {
        var temp :| temp in todo;
        todo := todo - {temp};
        dir.temps := dir.temps - {temp};
      }
    }

    /** Writes the whole payload aside, then renames it into place. */
    method PublishDescriptor(d: Descriptor, temp: string)
      requires temp !in dir.temps
      modifies dir`files, dir`temps
      ensures dir.files == old(dir.files)[d.agyPid := Complete(d)] && dir.temps == old(dir.temps)
    {
      dir.temps := dir.temps[temp := Garbage];
      dir.temps := dir.temps[temp := Complete(d)];
      dir.files := dir.files[d.agyPid := dir.temps[temp]];
      dir.temps := dir.temps - {temp};
    }

    /** Refused while the lock is held; otherwise decided by the checks, and published exactly when none fails. */
    method Register(d: Descriptor, temp: string, o: Observed) returns (refusal: Option<Refusal>)
      modifies this, dir
      ensures old(dir.lock) ==>
                refusal == Some(LockHeld) && dir.files == old(dir.files) && live == old(live)
                    && dir.temps == old(dir.temps) && dir.lock
      ensures !old(dir.lock) ==>
                && refusal == Verdict(maxLive,
                    old(live).Keys + Reconciled(old(dir.files), o, old(live).Keys).Keys, old(live), d)
                && dir.files == AfterRegister(old(dir.files), old(live), d, o, refusal)
                && live == (if refusal == None then old(live)[d.agyPid := d.sessionId] else old(live))
                && dir.temps == (if refusal == None then map[] else old(dir.temps))
                && !dir.lock
    {
      if dir.lock {
        return Some(LockHeld);
      }
      dir.lock := true;
      var onDisk := ReconcileOnDisk(o);
      var effective := onDisk + live.Keys;
      assert effective == onDisk;
      if |effective| >= maxLive {
        refusal := Some(AtCapacity);
      } else if d.agyPid in live {
        refusal := Some(DuplicateSelector);
      } else if d.sessionId in live.Values {
        refusal := Some(DuplicateSession);
      } else {
        refusal := None;
        RemoveAbandonedTempFiles();
        PublishDescriptor(d, temp);
        live := live[d.agyPid := d.sessionId];
      }
      dir.lock := false;
    }

    /** The callback a successful registration returns. */
    method Release(pid: Pid)
      modifies this, dir`files
      ensures dir.files == old(dir.files) - {pid} && live == old(live) - {pid}
    {
      dir.files := dir.files - {pid};
      live := live - {pid};
    }
  }

  datatype Reason = AncestorPid | SelectorBelongsToAnother | NoSelectorForThisRun

  predicate Resolvable(files: map<Pid, Content>, o: Observed, pid: Pid) {
    Usable(files, pid, pid in o.alive, pid in o.sockets)
  }

  /** An empty or absent selector matches every session. */
  predicate Matches(files: map<Pid, Content>, selector: Option<string>, pid: Pid)
    requires pid in files && files[pid].Complete?
  {
    selector == None || selector == Some("") || files[pid].descriptor.sessionId == selector.value
  }

  /** The files once these were looked at: what could not be resolved under their names is deleted. */
  function Visited(files: map<Pid, Content>, o: Observed, looked: seq<Pid>): map<Pid, Content> {
    map pid | pid in files && (pid !in looked || Resolvable(files, o, pid)) :: files[pid]
  }

  /**
   * The launcher's search, closest ancestor first. It finds the first ancestor whose descriptor is
   * usable and matches; a usable descriptor of another session is passed over, never returned.
   */
  method ResolveBridgeSession(dir: Directory, ancestors: seq<Pid>, selector: Option<string>, o: Observed)
    returns (found: Option<Descriptor>, reason: Reason)
    modifies dir`files
    ensures found.Some? <==> reason == AncestorPid
    ensures found.Some? ==> exists i ::
        0 <= i < |ancestors| && FoundAt(old(dir.files), ancestors, selector, o, i, found.value)
        && dir.files == Visited(old(dir.files), o, ancestors[..i])
    ensures found.Some? ==>
              && found.value.agyPid in ancestors && found.value.agyPid in o.alive && found.value.agyPid in o.sockets
              && (selector.Some? && selector.value != "" ==> found.value.sessionId == selector.value)
    ensures found == None ==> dir.files == Visited(old(dir.files), o, ancestors)
    ensures found == None ==>
              && (forall i :: 0 <= i < |ancestors| && Resolvable(old(dir.files), o, ancestors[i]) ==>
                  !Matches(old(dir.files), selector, ancestors[i]))
              && (reason == SelectorBelongsToAnother <==>
                  exists i :: 0 <= i < |ancestors| && Resolvable(old(dir.files), o, ancestors[i]))
    ensures forall pid :: pid in old(dir.files) && (pid !in ancestors || Resolvable(old(dir.files), o, pid)) ==>
        pid in dir.files
    ensures forall pid :: pid in dir.files ==> pid in old(dir.files) && dir.files[pid] == old(dir.files)[pid]
    ensures found == None ==> forall pid :: pid in dir.files && pid in ancestors ==> Resolvable(dir.files, o, pid)
  {
    var sawForeignSelector := false;
    for i := 0 to |ancestors|
      invariant forall j :: 0 <= j < i && Resolvable(old(dir.files), o, ancestors[j]) ==>
          !Matches(old(dir.files), selector, ancestors[j])
      invariant sawForeignSelector <==> exists j :: 0 <= j < i && Resolvable(old(dir.files), o, ancestors[j])
      invariant dir.files == Visited(old(dir.files), o, ancestors[..i])
    {
      var pid := ancestors[i];
      assert ancestors[..i + 1] == ancestors[..i] + [pid];
      if !Resolvable(dir.files, o, pid) {
        dir.files := dir.files - {pid};
      } else {
        var descriptor := dir.files[pid].descriptor;
        if selector.Some? && selector.value != "" && descriptor.sessionId != selector.value {
          sawForeignSelector := true;
        } else {
          assert FoundAt(old(dir.files), ancestors, selector, o, i, descriptor);
          return Some(descriptor), AncestorPid;
        }
      }
    }
    assert ancestors[..|ancestors|] == ancestors;
    found, reason := None, if sawForeignSelector then SelectorBelongsToAnother else NoSelectorForThisRun;
  }

  ghost predicate FoundAt(files: map<Pid, Content>, ancestors: seq<Pid>, selector: Option<string>, o: Observed,
      i: nat, d: Descriptor)
    requires i < |ancestors|
  {
    && Resolvable(files, o, ancestors[i]) && files[ancestors[i]] == Complete(d)
        && Matches(files, selector, ancestors[i])
    && forall j :: 0 <= j < i && Resolvable(files, o, ancestors[j]) ==> !Matches(files, selector, ancestors[j])
  }

  function AfterRegister(files: map<Pid, Content>, live: map<Pid, string>, d: Descriptor, o: Observed,
      refusal: Option<Refusal>): map<Pid, Content> {
    var kept := Reconciled(files, o, live.Keys);
    if refusal == None then kept[d.agyPid := Complete(d)] else kept
  }

  /**
   * What one registration leaves on disk: its own descriptor if accepted, its own runs, and otherwise only what was
   * usable.
   */
  lemma RegisterLeaves(files: map<Pid, Content>, live: map<Pid, string>, d: Descriptor, o: Observed,
      refusal: Option<Refusal>, pid: Pid)
    ensures var files' := AfterRegister(files, live, d, o, refusal);
            if refusal == None && pid == d.agyPid then pid in files' && files'[pid] == Complete(d)
            else
              && (pid in files' <==>
                    pid in files && (pid in live || Usable(files, pid, pid in o.alive, pid in o.sockets)))
              && (pid in files' ==> files'[pid] == files[pid])
  {
  }

  /** Files and own runs after one registration, with what the system said at the time. */
  function Registered(files: map<Pid, Content>, live: map<Pid, string>, d: Descriptor, o: Observed, maxLive: nat):
      (map<Pid, Content>, map<Pid, string>) {
    var refusal := Verdict(maxLive, live.Keys + Reconciled(files, o, live.Keys).Keys, live, d);
    (AfterRegister(files, live, d, o, refusal), if refusal == None then live[d.agyPid := d.sessionId] else live)
  }

  function RegisteredAll(files: map<Pid, Content>, live: map<Pid, string>, attempts: seq<(Descriptor, Observed)>,
                         maxLive: nat):
      (map<Pid, Content>, map<Pid, string>)
    decreases |attempts|
  {
    if attempts == [] then (files, live)
    else
      var (files', live') := Registered(files, live, attempts[0].0, attempts[0].1, maxLive);
      RegisteredAll(files', live', attempts[1..], maxLive)
  }

  lemma OwnRunSurvivesOne(files: map<Pid, Content>, live: map<Pid, string>, d: Descriptor, o: Observed,
                          maxLive: nat, pid: Pid)
    requires pid in live
    ensures var (files', live') := Registered(files, live, d, o, maxLive);
            pid in live' && live'[pid] == live[pid] && ContentAt(files', pid) == ContentAt(files, pid)
  {
    hide Reconciled, AfterRegister;
    var refusal := Verdict(maxLive, live.Keys + Reconciled(files, o, live.Keys).Keys, live, d);
    RegisterLeaves(files, live, d, o, refusal, pid);
  }

  /**
   * Whatever a process registers afterwards, and whatever the system says of its processes and sockets,
   * what stands under the name of a run it has not released is left alone.
   */
  lemma {:induction false} OwnRunsSurvive(files: map<Pid, Content>, live: map<Pid, string>,
                                          attempts: seq<(Descriptor, Observed)>, maxLive: nat, pid: Pid)
    requires pid in live
    ensures var (files', live') := RegisteredAll(files, live, attempts, maxLive);
            pid in live' && live'[pid] == live[pid] && ContentAt(files', pid) == ContentAt(files, pid)
    decreases |attempts|
  {
    hide Registered, ContentAt;
    if attempts != [] {
      OwnRunSurvivesOne(files, live, attempts[0].0, attempts[0].1, maxLive, pid);
      var (files', live') := Registered(files, live, attempts[0].0, attempts[0].1, maxLive);
      OwnRunsSurvive(files', live', attempts[1..], maxLive, pid);
    }
  }

  lemma RegisterKeepsTheBound(files: map<Pid, Content>, live: map<Pid, string>, d: Descriptor,
      o: Observed, maxLive: nat)
    requires |files| <= maxLive
    ensures var refusal := Verdict(maxLive, live.Keys + Reconciled(files, o, live.Keys).Keys, live, d);
            |AfterRegister(files, live, d, o, refusal)| <= maxLive
  {
    hide Reconciled;
    var kept := Reconciled(files, o, live.Keys);
    FewerKept(files, o, live.Keys);
    if Verdict(maxLive, live.Keys + kept.Keys, live, d) == None {
      FewerFiles(kept, live.Keys + kept.Keys);
      assert live.Keys + kept.Keys + live.Keys == live.Keys + kept.Keys;
      AddOne(kept, d.agyPid, Complete(d));
    }
  }

  lemma AddOne(files: map<Pid, Content>, pid: Pid, content: Content)
    ensures |files[pid := content]| <= |files| + 1
  {
  }

  lemma FewerKept(files: map<Pid, Content>, o: Observed, live: set<Pid>)
    ensures |Reconciled(files, o, live)| <= |files|
  {
    FewerFiles(Reconciled(files, o, live), files.Keys);
  }

  /** A descriptor that stands for a live run: whole, under its own pid, with its process alive and its socket there. */
  predicate Stands(files: map<Pid, Content>, o: Observed, pid: Pid) {
    && pid in files && files[pid].Complete? && files[pid].descriptor.agyPid == pid
    && pid in o.alive && pid in o.sockets
  }

  /** The pids that count against the maximum: the own runs, and those of descriptors that stand. */
  function Counting(files: map<Pid, Content>, o: Observed, live: set<Pid>): set<Pid> {
    live + set pid | pid in files.Keys && Stands(files, o, pid)
  }

  lemma CountedExactly(files: map<Pid, Content>, o: Observed, live: set<Pid>)
    ensures live + Reconciled(files, o, live).Keys + live == Counting(files, o, live)
  {
  }

  /** A registration is refused exactly for these reasons, the first that applies. */
  lemma RegistrationIsDecided(files: map<Pid, Content>, live: map<Pid, string>, d: Descriptor,
      o: Observed, maxLive: nat)
    ensures var refusal := Verdict(maxLive, live.Keys + Reconciled(files, o, live.Keys).Keys, live, d);
            var full := |Counting(files, o, live.Keys)| >= maxLive;
            var session := exists k :: k in live && live[k] == d.sessionId;
            && (refusal == Some(AtCapacity) <==> full)
            && (refusal == Some(DuplicateSelector) <==> !full && d.agyPid in live)
            && (refusal == Some(DuplicateSession) <==> !full && d.agyPid !in live && session)
            && (refusal == None <==> !full && d.agyPid !in live && !session)
  {
    hide Reconciled, Counting;
    CountedExactly(files, o, live.Keys);
    assert d.sessionId in live.Values <==> exists k :: k in live && live[k] == d.sessionId;
  }

  /** It leaves whatever stands or is its own, its descriptor if it was not refused, and nothing else. */
  lemma RegistrationLeavesExactly(files: map<Pid, Content>, live: map<Pid, string>, d: Descriptor, o: Observed,
      refusal: Option<Refusal>, pid: Pid)
    ensures ContentAt(AfterRegister(files, live, d, o, refusal), pid)
         == if refusal == None && pid == d.agyPid then Some(Complete(d))
            else if pid in live || Stands(files, o, pid) then ContentAt(files, pid) else None
  {
  }

  /** In the step system too a process condemns exactly what is not its own and does not stand. */
  lemma InspectionIsDecided(s: Site, p: Process, pid: Pid, alive: bool, socket: bool)
    requires Enabled(s, Inspect(p, pid, alive, socket))
    ensures var t := Next(s, Inspect(p, pid, alive, socket));
            var stands := pid in s.files && s.files[pid].Complete? && s.files[pid].descriptor.agyPid == pid
                          && alive && socket;
            && p in t.procs && t.files == s.files && t.procs[p].live == s.procs[p].live
            && (t.procs[p].at.Removing? <==> pid !in s.procs[p].live && !stands)
            && (t.procs[p].at.Reconciling? <==> pid in s.procs[p].live || stands)
            && (t.procs[p].at.Removing? ==> t.procs[p].at.condemned == pid)
            && (t.procs[p].at.Reconciling? && pid !in s.procs[p].live ==> pid in t.procs[p].at.surviving)
  {
  }

  /** A launcher keeps its reading to delete by exactly when what it read does not stand. */
  lemma JudgementIsDecided(s: Site, launcher: nat, alive: bool, socket: bool)
    requires Enabled(s, LaunchJudge(launcher, alive, socket))
    ensures var t := Next(s, LaunchJudge(launcher, alive, socket));
            var r := s.readings[launcher];
            var stands := r.seen.Complete? && r.seen.descriptor.agyPid == r.pid && alive && socket;
            && t.files == s.files
            && (launcher in t.readings <==> !stands)
            && (launcher in t.readings ==> t.readings[launcher] == r.(judged := Some(Answers(alive, socket))))
  {
  }

  /** A process that gives up, on the lock or on its publication, leaves the directory and its own runs as they were. */
  lemma GivingUpLeavesNothing(s: Site, p: Process)
    ensures Enabled(s, TimeOut(p)) ==>
              Next(s, TimeOut(p)) == s.(procs := s.procs[p := Proc(s.procs[p].live, Outside)])
    ensures Enabled(s, PublishFails(p)) ==>
              var t := Next(s, PublishFails(p));
              && t.files == s.files && t.temps == s.temps - {s.procs[p].at.temp} && t.lock == s.lock
              && t.procs == s.procs[p := Proc(s.procs[p].live, Unlocking(None))]
  {
  }

  lemma ReleaseBegins(s: Site, p: Process, pid: Pid)
    requires p in s.procs && s.procs[p].at.Outside? && pid in s.procs[p].live
    ensures Next(s, BeginRelease(p, pid))
         == s.(files := s.files - {pid}, procs := s.procs[p := Proc(s.procs[p].live, Releasing(pid))])
  {
  }

  lemma ReleaseEnds(s: Site, p: Process, pid: Pid)
    requires p in s.procs && s.procs[p].at == Releasing(pid)
    ensures Next(s, EndRelease(p)) == s.(procs := s.procs[p := Proc(s.procs[p].live - {pid}, Outside)])
  {
  }

  /** Releasing a run takes its descriptor away first and then the run, and nothing else. */
  lemma ReleaseIsARun(s: Site, p: Process, pid: Pid)
    requires p in s.procs && s.procs[p].at.Outside? && pid in s.procs[p].live
    ensures Run(s, [BeginRelease(p, pid), EndRelease(p)])
         == s.(files := s.files - {pid}, procs := s.procs[p := Proc(s.procs[p].live - {pid}, Outside)])
  {
    hide Run, Next;
    ReleaseBegins(s, p, pid);
    var t := s.(files := s.files - {pid}, procs := s.procs[p := Proc(s.procs[p].live, Releasing(pid))]);
    RunOne(s, BeginRelease(p, pid));
    ReleaseEnds(t, p, pid);
    RunOne(t, EndRelease(p));
    RunAppend(s, [BeginRelease(p, pid)], [EndRelease(p)]);
    assert [BeginRelease(p, pid)] + [EndRelease(p)] == [BeginRelease(p, pid), EndRelease(p)];
  }

  // ---- as a run ----

  ghost predicate AllBy(steps: seq<Step>, p: Process) {
    forall i :: 0 <= i < |steps| ==>
        !steps[i].LaunchRead? && !steps[i].LaunchJudge? && !steps[i].LaunchDelete? && steps[i].p == p
        && !steps[i].Reclaim?
  }

  /** The files once those in `todo` have been judged, and which of them joined the survivors. */
  function Swept(files: map<Pid, Content>, o: Observed, live: set<Pid>, todo: set<Pid>): map<Pid, Content> {
    map pid | pid in files && (pid !in todo || Kept(files, o, live, pid)) :: files[pid]
  }

  function Judged(files: map<Pid, Content>, o: Observed, live: set<Pid>, todo: set<Pid>): set<Pid> {
    set pid | pid in todo && pid !in live && Kept(files, o, live, pid)
  }

  lemma SweepOne(files: map<Pid, Content>, o: Observed, live: set<Pid>, todo: set<Pid>, pid: Pid)
    requires pid in todo && pid in files
    ensures var rest := todo - {pid};
            if Kept(files, o, live, pid) then
              && Swept(files, o, live, todo) == Swept(files, o, live, rest)
              && Judged(files, o, live, todo) == Judged(files, o, live, rest) + (if pid in live then {} else {pid})
            else
              && Swept(files, o, live, todo) == Swept(files - {pid}, o, live, rest)
              && Judged(files, o, live, todo) == Judged(files - {pid}, o, live, rest)
  {
    var rest := todo - {pid};
    assert forall x :: x in rest && x != pid ==> (Kept(files, o, live, x) <==> Kept(files - {pid}, o, live, x));
  }

  lemma MoreBy(a: seq<Step>, b: seq<Step>, p: Process)
    requires AllBy(a, p) && AllBy(b, p)
    ensures AllBy(a + b, p)
  {
  }

  /** Where a process stands after judging one file. */
  lemma JudgeOne(s: Site, p: Process, o: Observed, pid: Pid) returns (steps: seq<Step>)
    requires p in s.procs && s.procs[p].at.Reconciling? && pid in s.procs[p].at.todo && pid in s.files
    ensures AllBy(steps, p)
    ensures var at := s.procs[p].at;
            var live := s.procs[p].live.Keys;
            var rest := at.todo - {pid};
            Run(s, steps) == if Kept(s.files, o, live, pid)
                             then Move(s, p, Reconciling(at.d, rest, at.surviving + if pid in live then {} else {pid}))
                             else Move(s.(files := s.files - {pid}), p, Reconciling(at.d, rest, at.surviving))
  {
    hide Run;
    var at := s.procs[p].at;
    var inspect := Inspect(p, pid, pid in o.alive, pid in o.sockets);
    RunOne(s, inspect);
    if Kept(s.files, o, s.procs[p].live.Keys, pid) {
      steps := [inspect];
      assert at.surviving + {} == at.surviving;
    } else {
      steps := [inspect, RemoveStale(p)];
      RunAppend(s, [inspect], [RemoveStale(p)]);
      assert [inspect] + [RemoveStale(p)] == steps;
      RunOne(Next(s, inspect), RemoveStale(p));
      var answers := Answers(pid in o.alive, pid in o.sockets);
      var t := Move(s, p, Removing(at.d, at.todo - {pid}, at.surviving, pid, ContentAt(s.files, pid), answers));
      assert Next(s, inspect) == t;
    }
  }

  /** Judging the files that are left, one by one in some order. */
  lemma {:induction false} ReconcilingRun(s: Site, p: Process, o: Observed, todo: set<Pid>) returns (steps: seq<Step>)
    requires p in s.procs && s.procs[p].at.Reconciling? && s.procs[p].at.todo == todo
    requires todo <= s.files.Keys
    ensures AllBy(steps, p)
    ensures var at := s.procs[p].at;
            Run(s, steps) == Move(s.(files := Swept(s.files, o, s.procs[p].live.Keys, todo)), p,
                                  Reconciling(at.d, {}, at.surviving + Judged(s.files, o, s.procs[p].live.Keys, todo)))
    decreases todo
  {
    hide Swept, Judged, Kept, AllBy, Move;
    var live := s.procs[p].live.Keys;
    if todo == {} {
      steps := [];
      assert AllBy(steps, p) by { NoSteps(p); }
      NothingToJudge(s.files, o, live);
      assert s.procs[p].at == Reconciling(s.procs[p].at.d, {}, s.procs[p].at.surviving + {});
      NotMoved(s, p);
    } else {
      hide Run;
      var pid :| pid in todo;
      SweepOne(s.files, o, live, todo, pid);
      var first := JudgeOne(s, p, o, pid);
      var mid := Run(s, first);
      var files := if Kept(s.files, o, live, pid) then s.files else s.files - {pid};
      var added := if Kept(s.files, o, live, pid) && pid !in live then {pid} else {};
      var at := Reconciling(s.procs[p].at.d, todo - {pid}, s.procs[p].at.surviving + added);
      assert at.surviving == s.procs[p].at.surviving || Kept(s.files, o, live, pid);
      assert mid == Move(s.(files := files), p, at);
      MovedIs(s.(files := files), p, at);
      var rest := ReconcilingRun(mid, p, o, todo - {pid});
      var judged := Judged(files, o, live, todo - {pid});
      assert at.surviving + judged == s.procs[p].at.surviving + Judged(s.files, o, live, todo);
      MovedAgain(s, p, files, at, Swept(files, o, live, todo - {pid}), Reconciling(at.d, {}, at.surviving + judged));
      steps := first + rest;
      MoreBy(first, rest, p);
      RunAppend(s, first, rest);
    }
  }

  lemma NotMoved(s: Site, p: Process)
    requires p in s.procs
    ensures Move(s, p, s.procs[p].at) == s
  {
  }

  lemma MovedIs(s: Site, p: Process, at: Point)
    requires p in s.procs
    ensures Move(s, p, at).files == s.files && p in Move(s, p, at).procs
    ensures Move(s, p, at).procs[p] == Proc(s.procs[p].live, at)
  {
  }

  lemma MovedAgain(s: Site, p: Process, a: map<Pid, Content>, at: Point, b: map<Pid, Content>, next: Point)
    requires p in s.procs
    ensures p in Move(s.(files := a), p, at).procs
    ensures Move(Move(s.(files := a), p, at).(files := b), p, next) == Move(s.(files := b), p, next)
  {
  }

  lemma NoSteps(p: Process)
    ensures AllBy([], p)
  {
  }

  lemma NothingToJudge(files: map<Pid, Content>, o: Observed, live: set<Pid>)
    ensures Swept(files, o, live, {}) == files && Judged(files, o, live, {}) == {}
  {
  }

  /** What `Register` is proved to do, as a change of the whole site. */
  function RegisterAlone(s: Site, p: Process, d: Descriptor, o: Observed): Site
    requires p in s.procs
  {
    var live := s.procs[p].live;
    var refusal := Verdict(s.maxLive, live.Keys + Reconciled(s.files, o, live.Keys).Keys, live, d);
    s.(files := AfterRegister(s.files, live, d, o, refusal),
       temps := if refusal == None then map[] else s.temps,
       published := if refusal == None then Counted(s.published, d.agyPid) else s.published,
       procs := s.procs[p := Proc(if refusal == None then live[d.agyPid := d.sessionId] else live, Outside)])
  }

  lemma CountedRun(s: Site, p: Process, d: Descriptor, o: Observed) returns (steps: seq<Step>)
    requires p in s.procs && s.procs[p].at.Outside? && !s.lock
    ensures AllBy(steps, p)
    ensures var live := s.procs[p].live.Keys;
            Run(s, steps) == Move(s.(lock := true, files := Reconciled(s.files, o, live)), p,
                                  Reconciling(d, {}, live + Reconciled(s.files, o, live).Keys))
  {
    hide Kept, Next;
    var live := s.procs[p].live.Keys;
    var entering := [Register(p, d), TakeLock(p), ListDirectory(p)];
    RunThree(s, entering[0], entering[1], entering[2]);
    var t := Move(s.(lock := true), p, Reconciling(d, s.files.Keys, live));
    assert Run(s, entering) == t by {
      BeginsWaiting(s, p, d);
      TakesTheLock(s, p, d);
      ListsFiles(s, p, d);
      hide Next, Move;
    }
    hide Run;
    var judging := ReconcilingRun(t, p, o, s.files.Keys);
    steps := entering + judging;
    RunAppend(s, entering, judging);
    assert Swept(s.files, o, live, s.files.Keys) == Reconciled(s.files, o, live);
    assert live + Judged(s.files, o, live, s.files.Keys) == live + Reconciled(s.files, o, live).Keys;
  }

  lemma DecidedRun(s: Site, p: Process, d: Descriptor, surviving: set<Pid>)
    requires p in s.procs && s.lock && s.procs[p].at == Reconciling(d, {}, s.procs[p].live.Keys + surviving)
    ensures var live := s.procs[p].live;
            var refusal := Verdict(s.maxLive, live.Keys + surviving, live, d);
            Run(s, [Decide(p)]) == if refusal.Some? then Move(s, p, Unlocking(refusal))
                else Move(s.(temps := map[]), p, Admitted(d))
  {
    hide Run;
    RunOne(s, Decide(p));
    var live := s.procs[p].live;
    assert live.Keys + surviving + live.Keys == live.Keys + surviving;
  }

  lemma UnlockedRun(s: Site, p: Process)
    requires p in s.procs && s.procs[p].at.Unlocking?
    ensures Run(s, [Unlock(p)]) == Move(s.(lock := false), p, Outside)
  {
    hide Run;
    RunOne(s, Unlock(p));
  }

  /** From the count on: what a refusal or a publication leaves, with the lock given back. */
  function Finished(s: Site, p: Process, d: Descriptor, refusal: Option<Refusal>): Site
    requires p in s.procs
  {
    var live := s.procs[p].live;
    if refusal.Some? then s.(lock := false, procs := s.procs[p := Proc(live, Outside)])
    else
      s.(lock := false, temps := map[], files := s.files[d.agyPid := Complete(d)],
          published := Counted(s.published, d.agyPid),
         procs := s.procs[p := Proc(live[d.agyPid := d.sessionId], Outside)])
  }

  lemma RefusedRun(s: Site, p: Process, refusal: Refusal)
    requires p in s.procs
    ensures Run(Move(s, p, Unlocking(Some(refusal))), [Unlock(p)])
        == s.(lock := false, procs := s.procs[p := Proc(s.procs[p].live, Outside)])
  {
    hide Run;
    UnlockedRun(Move(s, p, Unlocking(Some(refusal))), p);
  }

  lemma PublishedRun(s: Site, p: Process, d: Descriptor) returns (steps: seq<Step>)
    requires p in s.procs
    ensures AllBy(steps, p)
    ensures Run(Move(s.(temps := map[]), p, Admitted(d)), steps) == Finished(s, p, d, None)
  {
    hide Run, Next, AllBy, Counted;
    var writing := [OpenTemp(p, ""), FinishTemp(p), Rename(p)];
    var t := Move(s.(temps := map[]), p, Admitted(d));
    OwnSteps(p);
    MoreBy(writing, [Unlock(p)], p);
    steps := writing + [Unlock(p)];
    PublishesAlone(t, p, d, "");
    RunAppend(t, writing, [Unlock(p)]);
    UnlockedRun(Run(t, writing), p);
  }

  lemma FinishedRun(s: Site, p: Process, d: Descriptor, surviving: set<Pid>) returns (steps: seq<Step>)
    requires p in s.procs && s.lock && s.procs[p].at == Reconciling(d, {}, s.procs[p].live.Keys + surviving)
    ensures AllBy(steps, p)
    ensures var live := s.procs[p].live;
            Run(s, steps) == Finished(s, p, d, Verdict(s.maxLive, live.Keys + surviving, live, d))
  {
    hide Run, Next, AllBy, Verdict;
    var live := s.procs[p].live;
    var refusal := Verdict(s.maxLive, live.Keys + surviving, live, d);
    DecidedRun(s, p, d, surviving);
    OwnSteps(p);
    var rest: seq<Step>;
    if refusal.Some? {
      RefusedRun(s, p, refusal.value);
      rest := [Unlock(p)];
    } else {
      hide Finished;
      rest := PublishedRun(s, p, d);
    }
    RunAppend(s, [Decide(p)], rest);
    MoreBy([Decide(p)], rest, p);
    steps := [Decide(p)] + rest;
  }

  /** Nobody interfering, the step system does for a process exactly what the object's `Register` does. */
  lemma RegisterIsARun(s: Site, p: Process, d: Descriptor, o: Observed) returns (steps: seq<Step>)
    requires p in s.procs && s.procs[p].at.Outside? && !s.lock
    ensures AllBy(steps, p)
    ensures Run(s, steps) == RegisterAlone(s, p, d, o)
  {
    hide Run, Reconciled, AllBy, Next, Verdict, Counted;
    var live := s.procs[p].live;
    var kept := Reconciled(s.files, o, live.Keys);
    var counted := CountedRun(s, p, d, o);
    var t := Run(s, counted);
    var finishing := FinishedRun(t, p, d, kept.Keys);
    RunAppend(s, counted, finishing);
    MoreBy(counted, finishing, p);
    steps := counted + finishing;
  }

  lemma OwnSteps(p: Process)
    ensures AllBy([Decide(p)], p) && AllBy([Unlock(p)], p) && AllBy([OpenTemp(p, ""), FinishTemp(p), Rename(p)], p)
  {
  }
}
