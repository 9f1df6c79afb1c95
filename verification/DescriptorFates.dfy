/**
 * How a descriptor file comes to an end. Whatever removes one, in any interleaving, either owns a run
 * of that name or has judged a descriptor that stood there; and a launcher, which takes no lock, can
 * only hit one that it has not judged when that one was published after it read.
 */
module DescriptorFates {
  import opened Options
  import opened SessionRegistry

  // ---- what readings and condemnations go back to ----

  predicate FoundUnusable(content: Content, pid: Pid, answers: Answers) {
    !UsableContent(content, pid, answers.alive, answers.socket)
  }

  /** A reading is what stands under its name as long as nothing was published there since. */
  ghost predicate ReadingOk(s: Site, r: Reading) {
    && r.since <= Publications(s.published, r.pid)
    && (r.since == Publications(s.published, r.pid) && r.pid in s.files ==> s.files[r.pid] == r.seen)
    && (r.judged.Some? ==> FoundUnusable(r.seen, r.pid, r.judged.value))
  }

  /** What is about to be removed under the lock is what was judged. */
  ghost predicate RemovalOk(s: Site, at: Point) {
    at.Removing? ==>
      && (at.condemned in s.files ==> at.seen == Some(s.files[at.condemned]))
      && (at.seen.Some? ==> FoundUnusable(at.seen.value, at.condemned, at.answers))
  }

  ghost predicate Traced(s: Site) {
    && (forall l :: l in s.readings ==> ReadingOk(s, s.readings[l]))
    && (forall p :: p in s.procs ==> RemovalOk(s, s.procs[p].at))
  }

  /** No publication, and files only go. */
  ghost predicate OnlyFewerFiles(s: Site, t: Site) {
    && t.published == s.published
    && forall pid :: pid in t.files ==> pid in s.files && t.files[pid] == s.files[pid]
  }

  lemma FewerFilesUnlessRenamed(s: Site, step: Step)
    requires Enabled(s, step) && !step.Rename?
    ensures OnlyFewerFiles(s, After(s, step))
  {
    OnlyRenameWrites(s, step);
    hide After, Enabled;
  }

  /** Where a reading after a step comes from. */
  ghost predicate ReadingComesFrom(s: Site, l: nat, r: Reading) {
    || (l in s.readings && r == s.readings[l])
    || (r.pid in s.files && r == Reading(r.pid, s.files[r.pid], Publications(s.published, r.pid), None))
    || (l in s.readings && r.judged.Some? && r == s.readings[l].(judged := r.judged)
        && FoundUnusable(r.seen, r.pid, r.judged.value))
  }

  lemma ReadingsAfter(s: Site, step: Step)
    requires Enabled(s, step)
    ensures forall l :: l in After(s, step).readings ==> ReadingComesFrom(s, l, After(s, step).readings[l])
  {
    if step.LaunchRead? || step.LaunchJudge? || step.LaunchDelete? {
      hide UsableContent, Publications;
    } else {
      hide After, Enabled;
    }
  }

  /** Where a condemnation after a step comes from. */
  ghost predicate PointComesFrom(s: Site, p: Process, at: Point) {
    || (p in s.procs && at == s.procs[p].at)
    || !at.Removing?
    || (at.seen == ContentAt(s.files, at.condemned)
        && !Usable(s.files, at.condemned, at.answers.alive, at.answers.socket))
  }

  lemma InspectedFrom(s: Site, step: Step)
    requires Enabled(s, step) && step.Inspect?
    ensures After(s, step).procs.Keys == s.procs.Keys
    ensures forall p :: p in After(s, step).procs ==> PointComesFrom(s, p, After(s, step).procs[p].at)
  {
    hide Usable, UsableContent, ContentAt;
  }

  /** The steps of a publication, and giving the lock back. */
  predicate Publishing(step: Step) {
    step.OpenTemp? || step.FinishTemp? || step.Rename? || step.PublishFails? || step.Unlock?
  }

  lemma NobodyCondemnsPublishing(s: Site, step: Step, p: Process)
    requires Enabled(s, step) && Publishing(step) && p in After(s, step).procs
    ensures After(s, step).procs[p].at.Removing? ==> p in s.procs && After(s, step).procs[p].at == s.procs[p].at
  {
    hide Counted, Publications;
  }

  lemma NobodyCondemnsElsewhere(s: Site, step: Step, p: Process)
    requires Enabled(s, step) && !Publishing(step) && !step.Inspect? && p in After(s, step).procs
    ensures After(s, step).procs[p].at.Removing? ==> p in s.procs && After(s, step).procs[p].at == s.procs[p].at
  {
    hide Usable, UsableContent, Verdict, ReadingsJudged, Counted, Publications, ContentAt;
  }

  lemma NobodyElseCondemns(s: Site, step: Step, p: Process)
    requires Enabled(s, step) && !step.Inspect? && p in After(s, step).procs
    ensures After(s, step).procs[p].at.Removing? ==> p in s.procs && After(s, step).procs[p].at == s.procs[p].at
  {
    hide Enabled, After;
    if Publishing(step) {
      NobodyCondemnsPublishing(s, step, p);
    } else {
      NobodyCondemnsElsewhere(s, step, p);
    }
  }

  lemma PointsAfter(s: Site, step: Step)
    requires Enabled(s, step)
    ensures forall p :: p in After(s, step).procs ==> PointComesFrom(s, p, After(s, step).procs[p].at)
  {
    hide After, Enabled, Usable, ContentAt;
    if step.Inspect? {
      InspectedFrom(s, step);
    } else {
      forall p | p in After(s, step).procs ensures PointComesFrom(s, p, After(s, step).procs[p].at) {
        NobodyElseCondemns(s, step, p);
      }
    }
  }

  lemma OldReading(s: Site, t: Site, r: Reading)
    requires ReadingOk(s, r) && OnlyFewerFiles(s, t)
    ensures ReadingOk(t, r)
  {
  }

  lemma SourcedReading(s: Site, l: nat, r: Reading)
    requires Traced(s) && ReadingComesFrom(s, l, r)
    ensures ReadingOk(s, r)
  {
    assert l in s.readings ==> ReadingOk(s, s.readings[l]);
  }

  lemma SourcedPoint(s: Site, t: Site, p: Process, at: Point)
    requires Traced(s) && PointComesFrom(s, p, at) && OnlyFewerFiles(s, t)
    ensures RemovalOk(t, at)
  {
    assert p in s.procs ==> RemovalOk(s, s.procs[p].at);
  }

  lemma PlainStepTraces(s: Site, step: Step)
    requires Traced(s) && Enabled(s, step) && !step.Rename?
    ensures Traced(After(s, step))
  {
    FewerFilesUnlessRenamed(s, step);
    ReadingsAfter(s, step);
    PointsAfter(s, step);
    hide After, Enabled, ReadingOk, RemovalOk, ReadingComesFrom, PointComesFrom, OnlyFewerFiles;
    var t := After(s, step);
    forall l | l in t.readings ensures ReadingOk(t, t.readings[l]) {
      SourcedReading(s, l, t.readings[l]);
      OldReading(s, t, t.readings[l]);
    }
    forall p | p in t.procs ensures RemovalOk(t, t.procs[p].at) {
      SourcedPoint(s, t, p, t.procs[p].at);
    }
  }

  /** A publication counts, so readings of what it replaces are readings of the past. */
  lemma RenameStepTraces(s: Site, step: Step)
    requires SessionRegistry.Ok(s) && Traced(s) && Enabled(s, step) && step.Rename?
    ensures Traced(After(s, step))
  {
    var t := After(s, step);
    var d := s.procs[step.p].at.d;
    assert ProcOk(s, step.p);
    assert t == Renamed(s, step.p, d, s.procs[step.p].at.temp) && InsideOf(s, step.p);
    hide After, Enabled;
    forall l | l in t.readings ensures ReadingOk(t, t.readings[l]) {
      assert ReadingOk(s, s.readings[l]);
    }
    forall q | q in t.procs ensures RemovalOk(t, t.procs[q].at) {
      if q != step.p {
        assert !InsideOf(s, q);
      }
    }
  }

  lemma StepTraces(s: Site, step: Step)
    requires SessionRegistry.Ok(s) && Traced(s) && Enabled(s, step)
    ensures Traced(After(s, step))
  {
    hide SessionRegistry.Ok, Traced, Enabled, After;
    if step.Rename? {
      RenameStepTraces(s, step);
    } else {
      PlainStepTraces(s, step);
    }
  }

  lemma {:induction false} RunTraces(s: Site, steps: seq<Step>)
    requires SessionRegistry.Ok(s) && Traced(s) && AllTimely(s, steps)
    ensures SessionRegistry.Ok(Run(s, steps)) && Traced(Run(s, steps))
    decreases |steps|
  {
    hide SessionRegistry.Ok, Traced, Timely, Enabled, After;
    if steps != [] {
      if Enabled(s, steps[0]) {
        StepKeeps(s, steps[0]);
        StepTraces(s, steps[0]);
      }
      RunTraces(Next(s, steps[0]), steps[1..]);
    }
  }

  // ---- why a descriptor goes ----

  /** The three steps that remove a file, and the file each removes. */
  predicate Removes(s: Site, step: Step, pid: Pid)
    requires Enabled(s, step)
  {
    match step
    case BeginRelease(_, released) => released == pid
    case RemoveStale(p) => s.procs[p].at.condemned == pid
    case LaunchDelete(l) => s.readings[l].pid == pid
    case _ => false
  }

  /**
   * A release is of a run of one's own; under the lock the very content that goes was found unusable;
   * a launcher found unusable what it had read, which is what goes unless it was replaced since.
   */
  ghost predicate HasCause(s: Site, step: Step, pid: Pid)
    requires Enabled(s, step) && pid in s.files
  {
    match step
    case BeginRelease(p, _) => pid in s.procs[p].live
    case RemoveStale(p) => FoundUnusable(s.files[pid], pid, s.procs[p].at.answers)
    case LaunchDelete(l) =>
      && FoundUnusable(s.readings[l].seen, pid, s.readings[l].judged.value)
      && (s.readings[l].since == Publications(s.published, pid) ==> s.files[pid] == s.readings[l].seen)
    case _ => false
  }

  lemma FilesGoBy(s: Site, step: Step, pid: Pid)
    requires Enabled(s, step) && pid in s.files
    ensures pid !in After(s, step).files <==> Removes(s, step, pid)
  {
    hide Usable, UsableContent, Verdict, Inspected, ReadingsJudged, Counted;
  }

  lemma CauseOfRemoval(s: Site, step: Step, pid: Pid)
    requires Traced(s) && Enabled(s, step) && pid in s.files && Removes(s, step, pid)
    ensures HasCause(s, step, pid)
  {
    hide UsableContent, Publications;
    if step.RemoveStale? {
      assert RemovalOk(s, s.procs[step.p].at);
    } else if step.LaunchDelete? {
      assert ReadingOk(s, s.readings[step.launcher]);
    }
  }

  lemma ReplacedByRename(s: Site, step: Step, pid: Pid)
    requires SessionRegistry.Ok(s) && Enabled(s, step) && pid in s.files && pid in After(s, step).files
        && After(s, step).files[pid] != s.files[pid]
    ensures step.Rename? && s.procs[step.p].at.d.agyPid == pid
        && After(s, step).files[pid] == Complete(s.procs[step.p].at.d)
  {
    hide SessionRegistry.Ok, After;
    if step.Rename? {
      RenameKeeps(s, step);
    } else {
      OnlyRenameWrites(s, step);
    }
  }

  /**
   * In every timely run a descriptor goes exactly by a release, a removal under the lock or a
   * launcher, always for its cause; and what takes its place is a whole descriptor published there.
   */
  lemma DescriptorsGoForCause(s: Site, steps: seq<Step>, step: Step, pid: Pid)
    requires Fresh(s) && s.readings == map[] && AllTimely(s, steps)
    requires Enabled(Run(s, steps), step) && pid in Run(s, steps).files
    ensures var now := Run(s, steps);
            var next := After(now, step);
            && (pid !in next.files <==> Removes(now, step, pid))
            && (pid !in next.files ==> HasCause(now, step, pid))
            && (pid in next.files && next.files[pid] != now.files[pid] ==>
                  step.Rename? && now.procs[step.p].at.d.agyPid == pid
                      && next.files[pid] == Complete(now.procs[step.p].at.d))
  {
    FreshIsOk(s);
    assert Traced(s);
    hide Run, AllTimely, SessionRegistry.Ok, Traced, Enabled, After, Removes, HasCause;
    RunTraces(s, steps);
    var now := Run(s, steps);
    FilesGoBy(now, step, pid);
    if Removes(now, step, pid) {
      CauseOfRemoval(now, step, pid);
    } else if After(now, step).files[pid] != now.files[pid] {
      ReplacedByRename(now, step, pid);
    }
  }

  // ---- when a launcher removes a usable descriptor ----

  /** Judging a reading and then deleting. */
  function JudgedAndDeleted(s: Site, l: nat, answers: Answers): Site {
    Next(Next(s, LaunchJudge(l, answers.alive, answers.socket)), LaunchDelete(l))
  }

  /**
   * `answers` are of the descriptor that was read, whatever is there now: the file goes exactly when the reading is
   * unusable.
   */
  lemma LaunchRemovesExactly(s: Site, l: nat, answers: Answers)
    requires l in s.readings && s.readings[l].judged == None
    ensures var r := s.readings[l];
            JudgedAndDeleted(s, l, answers) == s.(readings := s.readings - {l},
                                                  files := if FoundUnusable(r.seen, r.pid, answers)
                                                      then s.files - {r.pid} else s.files)
  {
    hide UsableContent, Usable, Verdict, Inspected, Counted, Publications;
    var r := s.readings[l];
    var judge := LaunchJudge(l, answers.alive, answers.socket);
    assert Next(s, judge) == s.(readings := ReadingsJudged(s.readings, l, answers));
    if FoundUnusable(r.seen, r.pid, answers) {
      assert s.readings[l := r.(judged := Some(answers))] - {l} == s.readings - {l};
    }
  }

  /** Every reading is a whole descriptor named after its process. */
  ghost predicate WholeReadings(s: Site) {
    forall l :: l in s.readings ==>
        s.readings[l].seen.Complete? && s.readings[l].seen.descriptor.agyPid == s.readings[l].pid
  }

  lemma ReadingsStayWhole(s: Site, step: Step)
    requires Enabled(s, step) && WholeFiles(s) && WholeReadings(s)
    ensures WholeReadings(After(s, step))
  {
    ReadingsAfter(s, step);
    hide After, Enabled, Publications, FoundUnusable;
  }

  lemma {:induction false} RunStaysWhole(s: Site, steps: seq<Step>)
    requires SessionRegistry.Ok(s) && AllTimely(s, steps) && WholeFiles(s) && WholeReadings(s)
    ensures WholeFiles(Run(s, steps)) && WholeReadings(Run(s, steps))
    decreases |steps|
  {
    hide SessionRegistry.Ok, Timely, Enabled, After, WholeFiles, WholeReadings;
    if steps != [] {
      if Enabled(s, steps[0]) {
        StepKeeps(s, steps[0]);
        StepNeverTears(s, steps[0]);
        ReadingsStayWhole(s, steps[0]);
      }
      RunStaysWhole(Next(s, steps[0]), steps[1..]);
    }
  }

  /**
   * In every timely run over whole descriptors, a launcher that judges while a usable descriptor stands
   * under the name it read removes it exactly when the socket of the one it read is gone. If nothing
   * was published there since it read, that is the same descriptor, whose socket is there: it is spared.
   */
  lemma LauncherSparesUsableDescriptors(s: Site, steps: seq<Step>, l: nat, alive: bool, socket: bool, socketNow: bool)
    requires SessionRegistry.Ok(s) && Traced(s) && WholeFiles(s) && WholeReadings(s) && AllTimely(s, steps)
    requires var t := Run(s, steps);
             && l in t.readings && t.readings[l].judged == None
             && Usable(t.files, t.readings[l].pid, alive, socketNow)
    ensures var t := Run(s, steps);
            var r := t.readings[l];
            && (r.pid !in JudgedAndDeleted(t, l, Answers(alive, socket)).files <==> !socket)
            && (r.since == Publications(t.published, r.pid) ==> t.files[r.pid] == r.seen)
  {
    hide Run, AllTimely, SessionRegistry.Ok, Traced, WholeFiles, WholeReadings, JudgedAndDeleted, Publications;
    RunStaysWhole(s, steps);
    RunTraces(s, steps);
    var t := Run(s, steps);
    LaunchRemovesExactly(t, l, Answers(alive, socket));
    ReadingIsWhole(t, l);
    ReadingStands(t, l);
  }

  lemma ReadingIsWhole(s: Site, l: nat)
    requires WholeReadings(s) && l in s.readings
    ensures s.readings[l].seen.Complete? && s.readings[l].seen.descriptor.agyPid == s.readings[l].pid
  {
  }

  lemma ReadingStands(s: Site, l: nat)
    requires Traced(s) && l in s.readings && s.readings[l].pid in s.files
    ensures s.readings[l].since == Publications(s.published, s.readings[l].pid) ==>
        s.files[s.readings[l].pid] == s.readings[l].seen
  {
    assert ReadingOk(s, s.readings[l]);
  }

  /**
   * Deleting comes later still. In every timely run, if a launcher deletes a descriptor that is usable on
   * the very answers on which it found its reading unusable, then that descriptor was published after it read.
   */
  lemma OnlyLaterDescriptorsAreHit(s: Site, steps: seq<Step>, l: nat)
    requires Fresh(s) && s.readings == map[] && AllTimely(s, steps)
    requires var t := Run(s, steps);
             && l in t.readings && t.readings[l].judged.Some?
             && Usable(t.files, t.readings[l].pid, t.readings[l].judged.value.alive, t.readings[l].judged.value.socket)
    ensures var t := Run(s, steps); t.readings[l].since < Publications(t.published, t.readings[l].pid)
  {
    FreshIsOk(s);
    assert Traced(s);
    hide Run, AllTimely, SessionRegistry.Ok, Publications;
    RunTraces(s, steps);
    assert ReadingOk(Run(s, steps), Run(s, steps).readings[l]);
  }

  // ---- a launcher that is late ----

  function NewRun(): Descriptor {
    Descriptor("a", 11)
  }

  function Registering(): seq<Step> {
    [Register(1, NewRun()), TakeLock(1), ListDirectory(1)] + [Decide(1)] + [OpenTemp(1, "x"), FinishTemp(1), Rename(1)]
  }

  /**
   * Two launchers read what stands under 11, the first removes it, a run is published there, and the second judges
   * what it read.
   */
  function Published(socket: bool): seq<Step> {
    [LaunchRead(1, 11), LaunchRead(2, 11), LaunchJudge(1, true, socket)] + [LaunchDelete(1)] + Registering()
  }

  function OneFile(stale: Content): Site {
    Site(1, map[11 := stale], map[], false, map[1 := Proc(map[], Outside)], map[], map[])
  }

  lemma ReadOnce(s: Site, l: nat)
    requires 11 in s.files && s.published == map[]
    ensures Next(s, LaunchRead(l, 11)) == s.(readings := s.readings[l := Reading(11, s.files[11], 0, None)])
  {
  }

  lemma TwoRead(stale: Content, socket: bool)
    requires FoundUnusable(stale, 11, Answers(true, socket))
    ensures Next(Run(OneFile(stale), [LaunchRead(1, 11), LaunchRead(2, 11), LaunchJudge(1, true, socket)]),
        LaunchDelete(1))
         == OneFile(stale).(files := map[], readings := map[2 := Reading(11, stale, 0, None)])
  {
    hide Run, Next, FoundUnusable;
    RunThree(OneFile(stale), LaunchRead(1, 11), LaunchRead(2, 11), LaunchJudge(1, true, socket));
    var r := Reading(11, stale, 0, None);
    ReadOnce(OneFile(stale), 1);
    var s1 := OneFile(stale).(readings := map[1 := r]);
    assert map[][1 := r] == map[1 := r];
    ReadOnce(s1, 2);
    var s2 := OneFile(stale).(readings := map[1 := r, 2 := r]);
    LaunchRemovesExactly(s2, 1, Answers(true, socket));
    assert s2.readings - {1} == map[2 := r] && s2.files - {11} == map[];
  }

  lemma {:induction false} NoReclaimIsTimely(s: Site, steps: seq<Step>)
    requires forall step :: step in steps ==> !step.Reclaim?
    ensures AllTimely(s, steps)
    decreases |steps|
  {
    hide Enabled, Next;
    if steps != [] {
      NoReclaimIsTimely(Next(s, steps[0]), steps[1..]);
    }
  }

  lemma RegistersAlone(s: Site)
    requires s.maxLive == 1 && s.files == map[] && s.temps == map[] && !s.lock && 1 in s.procs
        && s.procs[1] == Proc(map[], Outside)
    ensures Run(s, Registering()) == s.(lock := true, files := map[11 := Complete(NewRun())],
        published := Counted(s.published, 11),
                                        procs := s.procs[1 := Proc(map[11 := "a"], Unlocking(None))])
  {
    hide Run, Next, Counted;
    var a, b, c := [Register(1, NewRun()), TakeLock(1), ListDirectory(1)], [Decide(1)],
        [OpenTemp(1, "x"), FinishTemp(1), Rename(1)];
    FirstIsAdmitted(s, NewRun());
    RunOne(Run(s, a), Decide(1));
    var t := s.(lock := true, procs := s.procs[1 := Proc(map[], Admitted(NewRun()))]);
    PublishesAlone(t, 1, NewRun(), "x");
    RunAppend(s, a, b);
    RunAppend(s, a + b, c);
    assert map[][11 := Complete(NewRun())] == map[11 := Complete(NewRun())];
  }

  lemma PublishedStands(stale: Content, socket: bool)
    requires FoundUnusable(stale, 11, Answers(true, socket))
    ensures Run(OneFile(stale), Published(socket))
         == Site(1, map[11 := Complete(NewRun())], map[], true, map[1 := Proc(map[11 := "a"], Unlocking(None))],
                 map[2 := Reading(11, stale, 0, None)], map[11 := 1])
  {
    hide Run, Next, Registering, FoundUnusable;
    var a, b := [LaunchRead(1, 11), LaunchRead(2, 11), LaunchJudge(1, true, socket)], [LaunchDelete(1)];
    TwoRead(stale, socket);
    RunOne(Run(OneFile(stale), a), LaunchDelete(1));
    RunAppend(OneFile(stale), a, b);
    RunAppend(OneFile(stale), a + b, Registering());
    RegistersAlone(OneFile(stale).(files := map[], readings := map[2 := Reading(11, stale, 0, None)]));
  }

  /**
   * Whatever unusable content was read first, half a file or a whole descriptor whose socket is gone: in a
   * run with nothing untimely in it, and with the process alive throughout, a launcher deletes a usable
   * descriptor of a live run.
   */
  lemma LateLaunchRemovesALiveRun(stale: Content, socket: bool)
    requires FoundUnusable(stale, 11, Answers(true, socket))
    ensures Fresh(OneFile(stale)) && AllTimely(OneFile(stale), Published(socket))
    ensures Usable(Run(OneFile(stale), Published(socket)).files, 11, true, true)
    ensures JudgedAndDeleted(Run(OneFile(stale), Published(socket)), 2, Answers(true, socket))
         == Site(1, map[], map[], true, map[1 := Proc(map[11 := "a"], Unlocking(None))], map[], map[11 := 1])
  {
    hide Run, AllTimely, JudgedAndDeleted, FoundUnusable;
    NoReclaimIsTimely(OneFile(stale), Published(socket));
    PublishedStands(stale, socket);
    var t := Run(OneFile(stale), Published(socket));
    LaunchRemovesExactly(t, 2, Answers(true, socket));
    assert t.readings - {2} == map[] && t.files - {11} == map[];
  }
}
