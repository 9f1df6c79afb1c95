/**
 * The rendezvous directory shared by several Router processes. Each process registers a session in
 * many small steps under a lock file; releases, launchers and crashes interleave freely. A step that
 * is not enabled changes nothing.
 */
module SessionRegistry {
  import opened Options
  import opened Sets

  type Pid = nat
  type Process = nat

  datatype Descriptor = Descriptor(sessionId: string, agyPid: Pid)

  /** What a descriptor file holds: a structurally valid descriptor, or anything else. */
  datatype Content = Complete(descriptor: Descriptor) | Garbage

  datatype Refusal = LockHeld | AtCapacity | DuplicateSelector | DuplicateSession

  /** What the operating system said of a run: whether its process is alive and its socket there. */
  datatype Answers = Answers(alive: bool, socket: bool)

  /** Where a process stands in `register`; a process is single-threaded, so there is one such point. */
  datatype Point =
    | Outside
    | Waiting(d: Descriptor)
    | Locked(d: Descriptor)
    | Reconciling(d: Descriptor, todo: set<Pid>, surviving: set<Pid>)
    | Removing(d: Descriptor, todo: set<Pid>, surviving: set<Pid>, condemned: Pid, seen: Option<Content>,
        answers: Answers)
    | Admitted(d: Descriptor)
    | Writing(d: Descriptor, temp: string)
    | Written(d: Descriptor, temp: string)
    | Unlocking(refusal: Option<Refusal>)
    | Releasing(pid: Pid)

  datatype Proc = Proc(live: map<Pid, string>, at: Point)

  /**
   * What a launcher, itself a process, has read of a descriptor, when (counted in publications under
   * that pid), and on which answers it found it unusable, if it did.
   */
  datatype Reading = Reading(pid: Pid, seen: Content, since: nat, judged: Option<Answers>)

  /** The directory, the processes that use it with one common maximum, and the launchers that read it. */
  datatype Site = Site(
    maxLive: nat,
    files: map<Pid, Content>,
    temps: map<string, Content>,
    lock: bool,
    procs: map<Process, Proc>,
    readings: map<nat, Reading>,
    // a tape: how often a descriptor was published under each pid
    published: map<Pid, nat>)

  /** `alive` and `socket` are what the operating system answers when asked. */
  datatype Step =
    | Register(p: Process, d: Descriptor)
    | TakeLock(p: Process)
    | TimeOut(p: Process)
    | Reclaim(p: Process)
    | ListDirectory(p: Process)
    | Inspect(p: Process, pid: Pid, alive: bool, socket: bool)
    | RemoveStale(p: Process)
    | Decide(p: Process)
    | OpenTemp(p: Process, temp: string)
    | FinishTemp(p: Process)
    | Rename(p: Process)
    | PublishFails(p: Process)
    | Unlock(p: Process)
    | BeginRelease(p: Process, pid: Pid)
    | EndRelease(p: Process)
    | Crash(p: Process)
    | LaunchRead(launcher: nat, pid: Pid)
    | LaunchJudge(launcher: nat, alive: bool, socket: bool)
    | LaunchDelete(launcher: nat)

  predicate UsableContent(content: Content, pid: Pid, alive: bool, socket: bool) {
    content.Complete? && content.descriptor.agyPid == pid && alive && socket
  }

  predicate Usable(files: map<Pid, Content>, pid: Pid, alive: bool, socket: bool) {
    pid in files && UsableContent(files[pid], pid, alive, socket)
  }

  function ContentAt(files: map<Pid, Content>, pid: Pid): Option<Content> {
    if pid in files then Some(files[pid]) else None
  }

  function Publications(published: map<Pid, nat>, pid: Pid): nat {
    if pid in published then published[pid] else 0
  }

  function Counted(published: map<Pid, nat>, pid: Pid): map<Pid, nat> {
    published[pid := Publications(published, pid) + 1]
  }

  /** The checks made under the lock, in the order they are made. */
  function Verdict(maxLive: nat, surviving: set<Pid>, live: map<Pid, string>, d: Descriptor): Option<Refusal> {
    if |surviving + live.Keys| >= maxLive then Some(AtCapacity)
    else if d.agyPid in live then Some(DuplicateSelector)
    else if d.sessionId in live.Values then Some(DuplicateSession)
    else None
  }

  predicate Enabled(s: Site, step: Step) {
    if step.LaunchRead? then step.pid in s.files
    else if step.LaunchJudge? then step.launcher in s.readings && s.readings[step.launcher].judged == None
    else if step.LaunchDelete? then step.launcher in s.readings && s.readings[step.launcher].judged.Some?
    else
      && step.p in s.procs
      && var at := s.procs[step.p].at;
      match step
      case Register(_, _) => at.Outside?
      case TakeLock(_) => at.Waiting? && !s.lock
      case TimeOut(_) => at.Waiting? && s.lock
      case Reclaim(_) => at.Waiting? && s.lock
      case ListDirectory(_) => at.Locked?
      case Inspect(_, pid, _, _) => at.Reconciling? && pid in at.todo
      case RemoveStale(_) => at.Removing?
      case Decide(_) => at.Reconciling? && at.todo == {}
      case OpenTemp(_, temp) => at.Admitted? && temp !in s.temps
      case FinishTemp(_) => at.Writing?
      case Rename(_) => at.Written?
      case PublishFails(_) => at.Writing? || at.Written?
      case Unlock(_) => at.Unlocking?
      case BeginRelease(p, pid) => at.Outside? && pid in s.procs[p].live
      case EndRelease(_) => at.Releasing?
      case Crash(_) => true
  }

  function Move(s: Site, p: Process, at: Point): Site
    requires p in s.procs
  {
    s.(procs := s.procs[p := s.procs[p].(at := at)])
  }

  /** One file is judged: it is an own run, it survives, or it is condemned. */
  function Inspected(s: Site, p: Process, pid: Pid, answers: Answers): Point
    requires p in s.procs && s.procs[p].at.Reconciling?
  {
    var at := s.procs[p].at;
    var rest := at.todo - {pid};
    if pid in s.procs[p].live then Reconciling(at.d, rest, at.surviving)
    else if Usable(s.files, pid, answers.alive, answers.socket) then Reconciling(at.d, rest, at.surviving + {pid})
    else Removing(at.d, rest, at.surviving, pid, ContentAt(s.files, pid), answers)
  }

  /** The temporary file replaces what is under the final name; without it the publication fails. */
  function Renamed(s: Site, p: Process, d: Descriptor, temp: string): Site
    requires p in s.procs
  {
    if temp !in s.temps then Move(s, p, Unlocking(None))
    else
      var proc := Proc(s.procs[p].live[d.agyPid := d.sessionId], Unlocking(None));
      s.(files := s.files[d.agyPid := s.temps[temp]], temps := s.temps - {temp}, procs := s.procs[p := proc],
         published := Counted(s.published, d.agyPid))
  }

  /** A usable reading is done with; an unusable one stands until the file is deleted. */
  function ReadingsJudged(readings: map<nat, Reading>, launcher: nat, answers: Answers): map<nat, Reading>
    requires launcher in readings
  {
    var r := readings[launcher];
    if UsableContent(r.seen, r.pid, answers.alive, answers.socket) then readings - {launcher}
    else readings[launcher := r.(judged := Some(answers))]
  }

  function After(s: Site, step: Step): (t: Site)
    requires Enabled(s, step)
    ensures t.maxLive == s.maxLive && (!step.Rename? ==> t.published == s.published)
    ensures !step.LaunchRead? && !step.LaunchJudge? && !step.LaunchDelete? ==> t.readings == s.readings
  {
    hide Usable, UsableContent, Verdict, Inspected, ReadingsJudged, Counted, Publications;
    match step
    case Register(p, d) => Move(s, p, Waiting(d))
    case TakeLock(p) => Move(s.(lock := true), p, Locked(s.procs[p].at.d))
    case TimeOut(p) => Move(s, p, Outside)
    case Reclaim(p) => s.(lock := false)
    case ListDirectory(p) => Move(s, p, Reconciling(s.procs[p].at.d, s.files.Keys, s.procs[p].live.Keys))
    case Inspect(p, pid, alive, socket) => Move(s, p, Inspected(s, p, pid, Answers(alive, socket)))
    case RemoveStale(p) =>
      var at := s.procs[p].at;
      Move(s.(files := s.files - {at.condemned}), p, Reconciling(at.d, at.todo, at.surviving))
    case Decide(p) =>
      var at := s.procs[p].at;
      var refusal := Verdict(s.maxLive, at.surviving, s.procs[p].live, at.d);
      if refusal.Some? then Move(s, p, Unlocking(refusal))
      else Move(s.(temps := map[]), p, Admitted(at.d))
    case OpenTemp(p, temp) => Move(s.(temps := s.temps[temp := Garbage]), p, Writing(s.procs[p].at.d, temp))
    case FinishTemp(p) =>
      var at := s.procs[p].at;
      Move(s.(temps := s.temps[at.temp := Complete(at.d)]), p, Written(at.d, at.temp))
    case Rename(p) => Renamed(s, p, s.procs[p].at.d, s.procs[p].at.temp)
    case PublishFails(p) => Move(s.(temps := s.temps - {s.procs[p].at.temp}), p, Unlocking(None))
    case Unlock(p) => Move(s.(lock := false), p, Outside)
    case BeginRelease(p, pid) => Move(s.(files := s.files - {pid}), p, Releasing(pid))
    case EndRelease(p) =>
      var proc := Proc(s.procs[p].live - {s.procs[p].at.pid}, Outside);
      s.(procs := s.procs[p := proc])
    case Crash(p) => s.(procs := s.procs[p := Proc(map[], Outside)])
    case LaunchRead(launcher, pid) =>
      s.(readings := s.readings[launcher := Reading(pid, s.files[pid], Publications(s.published, pid), None)])
    case LaunchJudge(launcher, alive, socket) => s.(readings :=
        ReadingsJudged(s.readings, launcher, Answers(alive, socket)))
    case LaunchDelete(launcher) =>
      s.(readings := s.readings - {launcher}, files := s.files - {s.readings[launcher].pid})
  }

  function Next(s: Site, step: Step): Site {
    if Enabled(s, step) then After(s, step) else s
  }

  /** Between taking the lock and giving it back. */
  predicate Inside(at: Point) {
    at.Locked? || at.Reconciling? || at.Removing? || at.Admitted? || at.Writing? || at.Written? || at.Unlocking?
  }

  predicate InsideOf(s: Site, p: Process) {
    p in s.procs && Inside(s.procs[p].at)
  }

  // ---- what every state keeps ----

  /** The lock file exists whenever someone is inside, and nobody else is. */
  ghost predicate Exclusive(s: Site) {
    && (forall p :: InsideOf(s, p) ==> s.lock)
    && (forall p, q | InsideOf(s, p) && InsideOf(s, q) :: p == q)
  }

  /** While one process is inside, the files it has not judged yet and those it let survive are all there are. */
  ghost predicate Accounted(s: Site, at: Point) {
    && (at.Reconciling? ==> s.files.Keys <= at.todo + at.surviving)
    && (at.Removing? ==> s.files.Keys <= at.todo + at.surviving + {at.condemned})
    && (at.Admitted? || at.Writing? || at.Written? ==> |s.files| < s.maxLive)
  }

  /** A process never condemns a run of its own, and its sessions differ. */
  ghost predicate OwnRunsKept(proc: Proc) {
    && (proc.at.Removing? ==> proc.at.condemned !in proc.live)
    && (proc.at.Reconciling? || proc.at.Removing? ==> proc.live.Keys <= proc.at.surviving)
    && (proc.at.Admitted? || proc.at.Writing? || proc.at.Written? ==>
          proc.at.d.agyPid !in proc.live && proc.at.d.sessionId !in proc.live.Values)
    && (forall a, b | a in proc.live && b in proc.live && proc.live[a] == proc.live[b] :: a == b)
  }

  /** The temporary file of a writer is there, and complete once it says so. */
  ghost predicate TempOk(s: Site, at: Point) {
    && (at.Writing? ==> at.temp in s.temps)
    && (at.Written? ==> at.temp in s.temps && s.temps[at.temp] == Complete(at.d))
  }

  ghost predicate ProcOk(s: Site, p: Process)
    requires p in s.procs
  {
    Accounted(s, s.procs[p].at) && OwnRunsKept(s.procs[p]) && TempOk(s, s.procs[p].at)
  }

  ghost predicate Ok(s: Site) {
    && Exclusive(s) && |s.files| <= s.maxLive
    && forall p :: p in s.procs ==> ProcOk(s, p)
  }

  /** A stale lock is only reclaimed when its holder is gone. */
  ghost predicate Timely(s: Site, step: Step) {
    step.Reclaim? ==> forall p :: !InsideOf(s, p)
  }

  lemma FewerFiles(a: map<Pid, Content>, b: set<Pid>)
    requires a.Keys <= b
    ensures |a| <= |b|
  {
    SubsetSize(a.Keys, b);
    assert |a| == |a.Keys|;
  }

  lemma FilesShrink(s: Site, files: map<Pid, Content>)
    requires Ok(s) && files.Keys <= s.files.Keys
    ensures Ok(s.(files := files))
  {
    FewerFiles(files, s.files.Keys);
    var t := s.(files := files);
    assert forall p :: InsideOf(t, p) <==> InsideOf(s, p);
    forall p | p in t.procs ensures ProcOk(t, p) {
      assert ProcOk(s, p);
    }
  }

  /** Moving one process between points outside, or between points inside, keeps the lock discipline. */
  lemma MoveKeeps(s: Site, t: Site, p: Process)
    requires Ok(s) && p in s.procs && p in t.procs && t == s.(temps := t.temps, procs := s.procs[p := t.procs[p]])
    requires Inside(t.procs[p].at) == Inside(s.procs[p].at)
    requires ProcOk(t, p)
    requires t.temps == s.temps || Inside(s.procs[p].at)
    ensures Ok(t)
  {
    assert forall q :: InsideOf(t, q) <==> InsideOf(s, q);
    forall q | q in t.procs ensures ProcOk(t, q) {
      assert ProcOk(s, q);
      if q != p && Inside(s.procs[p].at) {
        assert InsideOf(s, p);
        assert !InsideOf(s, q);
      }
    }
  }

  lemma LockStepKeeps(s: Site, step: Step)
    requires Ok(s) && Enabled(s, step) && (step.TakeLock? || step.Unlock? || step.Crash? || step.Reclaim?)
    requires Timely(s, step)
    ensures Ok(After(s, step))
  {
    hide Accounted, OwnRunsKept, TempOk;
    var t := After(s, step);
    forall q | q in t.procs ensures ProcOk(t, q) {
      assert ProcOk(s, q);
      SamePartsOk(s, t, q);
    }
    if step.TakeLock? {
      assert forall q :: InsideOf(t, q) ==> q == step.p || InsideOf(s, q);
    } else {
      assert forall q :: InsideOf(t, q) ==> InsideOf(s, q);
      if step.Unlock? {
        assert InsideOf(s, step.p);
      }
    }
  }

  lemma SamePartsOk(s: Site, t: Site, q: Process)
    requires q in s.procs && q in t.procs && ProcOk(s, q)
    requires t.files == s.files && t.temps == s.temps && t.maxLive == s.maxLive
    requires t.procs[q] == s.procs[q] || (t.procs[q].live == s.procs[q].live
        && (t.procs[q].at.Locked? || t.procs[q].at.Outside?))
             || t.procs[q] == Proc(map[], Outside)
    ensures ProcOk(t, q)
  {
  }

  lemma JudgeKeeps(s: Site, step: Step)
    requires Ok(s) && Enabled(s, step) && (step.ListDirectory? || step.Inspect?)
    ensures Ok(After(s, step))
  {
    if step.ListDirectory? {
      MovedKeeps(s, step.p, After(s, step).procs[step.p].at);
    } else {
      InspectedOk(s, step.p, step.pid, Answers(step.alive, step.socket));
      hide Inspected;
      MovedKeeps(s, step.p, Inspected(s, step.p, step.pid, Answers(step.alive, step.socket)));
    }
  }

  /** Judging a file: those not judged and those that survive are still all there are, and no own run is condemned. */
  lemma InspectedOk(s: Site, p: Process, pid: Pid, answers: Answers)
    requires Ok(s) && p in s.procs && s.procs[p].at.Reconciling? && pid in s.procs[p].at.todo
    ensures var at := Inspected(s, p, pid, answers);
            Inside(at) && Accounted(s, at) && OwnRunsKept(s.procs[p].(at := at)) && TempOk(s, at)
  {
    assert ProcOk(s, p);
    hide Exclusive, ProcOk;
  }

  lemma MovedKeeps(s: Site, p: Process, at: Point)
    requires Ok(s) && p in s.procs && Inside(s.procs[p].at) && Inside(at)
    requires Accounted(s, at) && OwnRunsKept(s.procs[p].(at := at)) && TempOk(s, at)
    ensures Ok(Move(s, p, at))
  {
    hide Accounted, OwnRunsKept, TempOk, Exclusive;
    var t := Move(s, p, at);
    SameDirectoryOk(s, t, at);
    hide Ok;
    MoveKeeps(s, t, p);
  }

  lemma RemoveStaleKeeps(s: Site, step: Step)
    requires Ok(s) && Enabled(s, step) && step.RemoveStale?
    ensures Ok(After(s, step))
  {
    var at := s.procs[step.p].at;
    assert ProcOk(s, step.p);
    var t := s.(files := s.files - {at.condemned});
    FilesShrink(s, t.files);
    MoveKeeps(t, After(s, step), step.p);
  }

  lemma DecideStep(s: Site, step: Step)
    requires Enabled(s, step) && step.Decide?
    ensures step.p in s.procs && s.procs[step.p].at.Reconciling? && s.procs[step.p].at.todo == {}
    ensures var proc := s.procs[step.p];
            var refusal := Verdict(s.maxLive, proc.at.surviving, proc.live, proc.at.d);
            After(s, step) == if refusal.Some? then Move(s, step.p, Unlocking(refusal))
                else Move(s.(temps := map[]), step.p, Admitted(proc.at.d))
  {
  }

  lemma DecideKeeps(s: Site, step: Step)
    requires Ok(s) && Enabled(s, step) && step.Decide?
    ensures Ok(After(s, step))
  {
    DecideStep(s, step);
    hide After;
    var proc := s.procs[step.p];
    assert ProcOk(s, step.p);
    if Verdict(s.maxLive, proc.at.surviving, proc.live, proc.at.d) == None {
      FewerFiles(s.files, proc.at.surviving + proc.live.Keys);
    }
    MoveKeeps(s, After(s, step), step.p);
  }

  lemma WriteKeeps(s: Site, step: Step)
    requires Ok(s) && Enabled(s, step) && (step.OpenTemp? || step.FinishTemp? || step.PublishFails?)
    ensures Ok(After(s, step))
  {
    assert ProcOk(s, step.p);
    MoveKeeps(s, After(s, step), step.p);
  }

  lemma RenameKeeps(s: Site, step: Step)
    requires Ok(s) && Enabled(s, step) && step.Rename?
    ensures Ok(After(s, step))
    ensures var d := s.procs[step.p].at.d;
            After(s, step).files == s.files[d.agyPid := Complete(d)] && d.agyPid in After(s, step).procs[step.p].live
  {
    var t := After(s, step);
    assert ProcOk(s, step.p);
    assert forall q :: InsideOf(t, q) <==> InsideOf(s, q);
    assert |t.files| <= |s.files| + 1;
    assert InsideOf(s, step.p);
    forall q | q in t.procs ensures ProcOk(t, q) {
      assert ProcOk(s, q);
      if q != step.p {
        assert !InsideOf(s, q);
      }
    }
  }

  /** Points outside ask nothing of the directory. */
  lemma OutsidePointOk(s: Site, p: Process, live: map<Pid, string>, at: Point)
    requires p in s.procs && OwnRunsKept(s.procs[p]) && live.Keys <= s.procs[p].live.Keys
    requires forall pid :: pid in live ==> live[pid] == s.procs[p].live[pid]
    requires OutsidePoint(at)
    ensures Accounted(s, at) && OwnRunsKept(Proc(live, at)) && TempOk(s, at)
  {
  }

  /** A step outside the lock moves one process between points outside, and adds no run to it. */
  lemma OutsideStep(s: Site, step: Step)
    requires Enabled(s, step) && (step.Register? || step.TimeOut? || step.EndRelease?)
    ensures step.p in s.procs && step.p in After(s, step).procs
    ensures var t := After(s, step);
            && t == s.(procs := s.procs[step.p := t.procs[step.p]])
            && OutsidePoint(s.procs[step.p].at) && OutsidePoint(t.procs[step.p].at)
            && t.procs[step.p].live.Keys <= s.procs[step.p].live.Keys
            && forall pid :: pid in t.procs[step.p].live ==> t.procs[step.p].live[pid] == s.procs[step.p].live[pid]
  {
  }

  predicate OutsidePoint(at: Point) {
    at.Outside? || at.Waiting? || at.Releasing?
  }

  lemma OutsideKeeps(s: Site, step: Step)
    requires Ok(s) && Enabled(s, step) && (step.Register? || step.TimeOut? || step.EndRelease?)
    ensures Ok(After(s, step))
  {
    OutsideStep(s, step);
    hide Accounted, OwnRunsKept, TempOk, Exclusive, After, Enabled;
    assert ProcOk(s, step.p);
    var t := After(s, step);
    OutsidePointOk(s, step.p, t.procs[step.p].live, t.procs[step.p].at);
    assert ProcOk(t, step.p) by { SameDirectoryOk(s, t, t.procs[step.p].at); }
    hide Ok, ProcOk;
    MoveKeeps(s, t, step.p);
  }

  lemma SameDirectoryOk(s: Site, t: Site, at: Point)
    requires t.files == s.files && t.temps == s.temps && t.maxLive == s.maxLive
    ensures Accounted(s, at) <==> Accounted(t, at)
    ensures TempOk(s, at) <==> TempOk(t, at)
  {
  }

  lemma LaunchKeeps(s: Site, step: Step)
    requires Ok(s) && Enabled(s, step) && (step.LaunchRead? || step.LaunchJudge? || step.LaunchDelete?)
    ensures Ok(After(s, step))
  {
    ReadingsDoNotMatter(s, After(s, step).readings);
    hide Ok;
    FilesShrink(s.(readings := After(s, step).readings), After(s, step).files);
  }

  lemma ReadingsDoNotMatter(s: Site, readings: map<nat, Reading>)
    requires Ok(s)
    ensures Ok(s.(readings := readings))
  {
    var t := s.(readings := readings);
    assert forall p :: InsideOf(t, p) <==> InsideOf(s, p);
    forall p | p in t.procs ensures ProcOk(t, p) {
      assert ProcOk(s, p);
    }
  }

  lemma BeginReleaseStep(s: Site, step: Step)
    requires Enabled(s, step) && step.BeginRelease?
    ensures step.p in s.procs && s.procs[step.p].at.Outside?
    ensures After(s, step) == Move(s.(files := s.files - {step.pid}), step.p, Releasing(step.pid))
  {
  }

  lemma BeginReleaseKeeps(s: Site, step: Step)
    requires Ok(s) && Enabled(s, step) && step.BeginRelease?
    ensures Ok(After(s, step))
  {
    BeginReleaseStep(s, step);
    hide Accounted, OwnRunsKept, TempOk, Exclusive, After, Enabled;
    var t := s.(files := s.files - {step.pid});
    FilesShrink(s, t.files);
    assert ProcOk(t, step.p);
    var u := After(s, step);
    OutsidePointOk(t, step.p, u.procs[step.p].live, u.procs[step.p].at);
    assert ProcOk(u, step.p) by { SameDirectoryOk(t, u, u.procs[step.p].at); }
    hide Ok, ProcOk;
    MoveKeeps(t, u, step.p);
  }

  /** Every timely step of every process keeps the bound, the lock discipline, and each process's own account. */
  lemma StepKeeps(s: Site, step: Step)
    requires Ok(s) && Enabled(s, step) && Timely(s, step)
    ensures Ok(After(s, step))
  {
    hide Ok, After, Timely;
    match step
    case RemoveStale(_) => RemoveStaleKeeps(s, step);
    case Decide(_) => DecideKeeps(s, step);
    case Rename(_) => RenameKeeps(s, step);
    case ListDirectory(_) => JudgeKeeps(s, step);
    case Inspect(_, _, _, _) => JudgeKeeps(s, step);
    case TakeLock(_) => LockStepKeeps(s, step);
    case Unlock(_) => LockStepKeeps(s, step);
    case Crash(_) => LockStepKeeps(s, step);
    case Reclaim(_) => LockStepKeeps(s, step);
    case LaunchRead(_, _) => LaunchKeeps(s, step);
    case LaunchJudge(_, _, _) => LaunchKeeps(s, step);
    case LaunchDelete(_) => LaunchKeeps(s, step);
    case BeginRelease(_, _) => BeginReleaseKeeps(s, step);
    case OpenTemp(_, _) => WriteKeeps(s, step);
    case FinishTemp(_) => WriteKeeps(s, step);
    case PublishFails(_) => WriteKeeps(s, step);
    case Register(_, _) => OutsideKeeps(s, step);
    case TimeOut(_) => OutsideKeeps(s, step);
    case EndRelease(_) => OutsideKeeps(s, step);
  }

  // ---- whole runs ----

  function Run(s: Site, steps: seq<Step>): Site
    decreases |steps|
  {
    if steps == [] then s else Run(Next(s, steps[0]), steps[1..])
  }

  /** No lock is taken for stale while its holder is inside. */
  ghost predicate AllTimely(s: Site, steps: seq<Step>)
    decreases |steps|
  {
    steps == [] || ((Enabled(s, steps[0]) ==> Timely(s, steps[0])) && AllTimely(Next(s, steps[0]), steps[1..]))
  }

  /** A directory that respects the bound, and any number of processes that have just started. */
  ghost predicate Fresh(s: Site) {
    |s.files| <= s.maxLive && forall p :: p in s.procs ==> s.procs[p] == Proc(map[], Outside)
  }

  lemma FreshIsOk(s: Site)
    requires Fresh(s)
    ensures Ok(s)
  {
  }

  lemma {:induction false} RunKeeps(s: Site, steps: seq<Step>)
    requires Ok(s) && AllTimely(s, steps)
    ensures Ok(Run(s, steps)) && Run(s, steps).maxLive == s.maxLive
    decreases |steps|
  {
    hide Ok, Timely, Enabled, After;
    if steps != [] {
      if Enabled(s, steps[0]) {
        StepKeeps(s, steps[0]);
      }
      RunKeeps(Next(s, steps[0]), steps[1..]);
    }
  }

  /**
   * However registrations, releases, launchers and crashes interleave, there are never more descriptors than the
   * maximum.
   */
  lemma NeverOverTheMaximum(s: Site, steps: seq<Step>)
    requires Fresh(s) && AllTimely(s, steps)
    ensures |Run(s, steps).files| <= s.maxLive
    ensures forall p, q | InsideOf(Run(s, steps), p) && InsideOf(Run(s, steps), q) :: p == q
  {
    hide Run, AllTimely;
    FreshIsOk(s);
    RunKeeps(s, steps);
  }

  /** No process ever marks a run of its own as stale. */
  lemma OwnRunNeverCondemned(s: Site, steps: seq<Step>, p: Process)
    requires Fresh(s) && AllTimely(s, steps) && InsideOf(Run(s, steps), p) && Run(s, steps).procs[p].at.Removing?
    ensures Run(s, steps).procs[p].at.condemned !in Run(s, steps).procs[p].live
  {
    hide Run, AllTimely;
    FreshIsOk(s);
    RunKeeps(s, steps);
    assert ProcOk(Run(s, steps), p);
  }

  // ---- what a reader of a final path can see ----

  /** Every descriptor file is the whole descriptor of the process it is named after. */
  ghost predicate WholeFiles(s: Site) {
    forall pid :: pid in s.files ==> s.files[pid].Complete? && s.files[pid].descriptor.agyPid == pid
  }

  lemma StepNeverTears(s: Site, step: Step)
    requires Ok(s) && Enabled(s, step) && WholeFiles(s)
    ensures WholeFiles(After(s, step))
  {
    if step.Rename? {
      hide Ok, After;
      RenameKeeps(s, step);
    } else {
      hide Ok;
      OnlyRenameWrites(s, step);
    }
  }

  lemma OnlyRenameWrites(s: Site, step: Step)
    requires Enabled(s, step) && !step.Rename?
    ensures forall pid :: pid in After(s, step).files ==> pid in s.files && After(s, step).files[pid] == s.files[pid]
  {
  }

  /** Publication is atomic: no interleaving shows a partial or misnamed descriptor, not even when writers crash. */
  lemma {:induction false} NoTornDescriptor(s: Site, steps: seq<Step>)
    requires Ok(s) && AllTimely(s, steps) && WholeFiles(s)
    ensures WholeFiles(Run(s, steps))
    decreases |steps|
  {
    hide Ok, Timely, Enabled, After, WholeFiles;
    if steps != [] {
      if Enabled(s, steps[0]) {
        StepKeeps(s, steps[0]);
        StepNeverTears(s, steps[0]);
      }
      NoTornDescriptor(Next(s, steps[0]), steps[1..]);
    }
  }

  // ---- what goes wrong when a lock is reclaimed early ----

  /**
   * Waiting and then taking a lock for stale lets one process in; it is the only one inside exactly when
   * the reclaim was timely. Timeliness is therefore all that mutual exclusion asks of a reclaim.
   */
  lemma ReclaimAdmitsASecondUnlessTimely(s: Site, q: Process)
    requires Ok(s) && Enabled(s, Reclaim(q))
    ensures Enabled(Next(s, Reclaim(q)), TakeLock(q))
    ensures var t := Next(Next(s, Reclaim(q)), TakeLock(q));
            (forall a, b | InsideOf(t, a) && InsideOf(t, b) :: a == b) <==> Timely(s, Reclaim(q))
  {
    hide Ok;
    var t := Next(Next(s, Reclaim(q)), TakeLock(q));
    assert t == Move(s, q, Locked(s.procs[q].at.d)) || t.lock;
    assert InsideOf(t, q) && !InsideOf(s, q);
    assert forall p :: p != q ==> (InsideOf(t, p) <==> InsideOf(s, p));
    if p :| InsideOf(s, p) {
      assert InsideOf(t, p) && p != q;
    }
  }

  /** One slot, two processes: the second takes the first one's lock for stale, and both publish. */
  function EarlyReclaim(): seq<Step> {
    [Register(1, Descriptor("a", 11)), TakeLock(1), ListDirectory(1), Decide(1),
     Register(2, Descriptor("b", 22)), Reclaim(2), TakeLock(2), ListDirectory(2), Decide(2),
     OpenTemp(2, "y"), FinishTemp(2), Rename(2), OpenTemp(1, "x"), FinishTemp(1), Rename(1)]
  }

  function TwoFresh(): Site {
    Site(1, map[], map[], false, map[1 := Proc(map[], Outside), 2 := Proc(map[], Outside)], map[], map[])
  }

  lemma {:induction false} RunAppend(s: Site, a: seq<Step>, b: seq<Step>)
    ensures Run(s, a + b) == Run(Run(s, a), b)
    decreases |a|
  {
    if a == [] {
      assert a + b == b;
    } else {
      assert (a + b)[0] == a[0] && (a + b)[1..] == a[1..] + b;
      RunAppend(Next(s, a[0]), a[1..], b);
    }
  }

  lemma RunThree(s: Site, a: Step, b: Step, c: Step)
    ensures Run(s, [a, b, c]) == Next(Next(Next(s, a), b), c)
  {
    hide Next;
    assert [a, b, c][1..] == [b, c] && [b, c][1..] == [c] && [c][1..] == [];
    assert Run(s, [a, b, c]) == Run(Next(s, a), [b, c]);
    assert Run(Next(s, a), [b, c]) == Run(Next(Next(s, a), b), [c]);
  }

  /** Two writers that both passed the count: each publishes, and the maximum is passed. */
  lemma BothPublish(s: Site)
    requires s.maxLive == 1 && s.files == map[] && s.temps == map[]
    requires 1 in s.procs && s.procs[1] == Proc(map[], Admitted(Descriptor("a", 11)))
    requires 2 in s.procs && s.procs[2] == Proc(map[], Admitted(Descriptor("b", 22)))
    ensures |Run(Run(s, [OpenTemp(2, "y"), FinishTemp(2), Rename(2)]),
        [OpenTemp(1, "x"), FinishTemp(1), Rename(1)]).files| == 2
  {
    PublishesAlone(s, 2, Descriptor("b", 22), "y");
    var t := Run(s, [OpenTemp(2, "y"), FinishTemp(2), Rename(2)]);
    PublishesAlone(t, 1, Descriptor("a", 11), "x");
    assert Run(t, [OpenTemp(1, "x"), FinishTemp(1), Rename(1)]).files
        == map[22 := Complete(Descriptor("b", 22)), 11 := Complete(Descriptor("a", 11))];
  }

  lemma PublishesAlone(s: Site, p: Process, d: Descriptor, temp: string)
    requires s.temps == map[] && p in s.procs && s.procs[p].at == Admitted(d)
    ensures Run(s, [OpenTemp(p, temp), FinishTemp(p), Rename(p)])
         == s.(files := s.files[d.agyPid := Complete(d)], published := Counted(s.published, d.agyPid),
               procs := s.procs[p := Proc(s.procs[p].live[d.agyPid := d.sessionId], Unlocking(None))])
  {
    hide Run, Next, Move;
    RunThree(s, OpenTemp(p, temp), FinishTemp(p), Rename(p));
    OpensAlone(s, p, d, temp);
    FinishesAlone(s, p, d, temp);
    RenamesAlone(s, p, d, temp);
  }

  lemma OpensAlone(s: Site, p: Process, d: Descriptor, temp: string)
    requires s.temps == map[] && p in s.procs && s.procs[p].at == Admitted(d)
    ensures Next(s, OpenTemp(p, temp)) == Move(s.(temps := map[temp := Garbage]), p, Writing(d, temp))
  {
  }

  lemma FinishesAlone(s: Site, p: Process, d: Descriptor, temp: string)
    requires p in s.procs
    ensures Next(Move(s.(temps := map[temp := Garbage]), p, Writing(d, temp)), FinishTemp(p))
         == Move(s.(temps := map[temp := Complete(d)]), p, Written(d, temp))
  {
  }

  lemma RenamesAlone(s: Site, p: Process, d: Descriptor, temp: string)
    requires s.temps == map[] && p in s.procs
    ensures Next(Move(s.(temps := map[temp := Complete(d)]), p, Written(d, temp)), Rename(p))
         == s.(files := s.files[d.agyPid := Complete(d)], published := Counted(s.published, d.agyPid),
               procs := s.procs[p := Proc(s.procs[p].live[d.agyPid := d.sessionId], Unlocking(None))])
  {
    assert map[temp := Complete(d)] - {temp} == map[];
  }

  lemma BeginsWaiting(s: Site, p: Process, d: Descriptor)
    requires p in s.procs && s.procs[p].at.Outside?
    ensures Next(s, Register(p, d)) == Move(s, p, Waiting(d))
  {
  }

  lemma TakesTheLock(s: Site, p: Process, d: Descriptor)
    requires p in s.procs && !s.lock
    ensures Next(Move(s, p, Waiting(d)), TakeLock(p)) == Move(s.(lock := true), p, Locked(d))
  {
  }

  lemma ListsFiles(s: Site, p: Process, d: Descriptor)
    requires p in s.procs
    ensures Next(Move(s.(lock := true), p, Locked(d)), ListDirectory(p))
         == Move(s.(lock := true), p, Reconciling(d, s.files.Keys, s.procs[p].live.Keys))
  {
  }

  lemma NothingToJudge(s: Site, p: Process, d: Descriptor)
    requires p in s.procs && s.maxLive == 1 && s.files == map[] && s.temps == map[] && s.procs[p].live == map[]
    ensures Next(Move(s, p, Reconciling(d, s.files.Keys, s.procs[p].live.Keys)), Decide(p)) == Move(s, p, Admitted(d))
  {
    assert s.files.Keys == {} && s.procs[p].live.Keys == {} && {} + s.procs[p].live.Keys == {};
  }

  lemma FirstIsAdmitted(s: Site, d: Descriptor)
    requires s.maxLive == 1 && s.files == map[] && s.temps == map[] && !s.lock
    requires 1 in s.procs && s.procs[1] == Proc(map[], Outside)
    ensures Next(Run(s, [Register(1, d), TakeLock(1), ListDirectory(1)]), Decide(1))
         == s.(lock := true, procs := s.procs[1 := Proc(map[], Admitted(d))])
  {
    hide Next, Run;
    RunThree(s, Register(1, d), TakeLock(1), ListDirectory(1));
    BeginsWaiting(s, 1, d);
    TakesTheLock(s, 1, d);
    ListsFiles(s, 1, d);
    NothingToJudge(s.(lock := true), 1, d);
  }

  lemma Reclaims(s: Site, p: Process, d: Descriptor)
    requires p in s.procs && s.procs[p].at == Waiting(d) && s.lock
    ensures Next(s, Reclaim(p)) == Move(s.(lock := false), p, Waiting(d))
  {
    assert s.procs[p := s.procs[p].(at := Waiting(d))] == s.procs;
  }

  lemma SecondIsAdmittedToo(s: Site, d: Descriptor)
    requires s.maxLive == 1 && s.files == map[] && s.temps == map[] && s.lock
    requires 2 in s.procs && s.procs[2] == Proc(map[], Waiting(d))
    ensures Next(Run(s, [Reclaim(2), TakeLock(2), ListDirectory(2)]), Decide(2))
         == s.(procs := s.procs[2 := Proc(map[], Admitted(d))])
  {
    hide Next, Run;
    RunThree(s, Reclaim(2), TakeLock(2), ListDirectory(2));
    Reclaims(s, 2, d);
    var t := s.(lock := false);
    TakesTheLock(t, 2, d);
    ListsFiles(t, 2, d);
    NothingToJudge(s, 2, d);
    assert t.(lock := true) == s;
  }

  lemma RunOne(s: Site, step: Step)
    ensures Run(s, [step]) == Next(s, step)
  {
    hide Next;
    assert [step][1..] == [];
  }

  lemma EarlyReclaimBreaksTheBound()
    ensures Fresh(TwoFresh()) && !AllTimely(TwoFresh(), EarlyReclaim())
    ensures |Run(TwoFresh(), EarlyReclaim()).files| == 2 > TwoFresh().maxLive
  {
    hide Run, AllTimely, Enabled, After;
    var s := TwoFresh();
    var d1, d2 := Descriptor("a", 11), Descriptor("b", 22);
    var a, b, c := [Register(1, d1), TakeLock(1), ListDirectory(1)], [Decide(1)], [Register(2, d2)];
    var d, e, f := [Reclaim(2), TakeLock(2), ListDirectory(2)], [Decide(2)],
        [OpenTemp(2, "y"), FinishTemp(2), Rename(2)];
    var g := [OpenTemp(1, "x"), FinishTemp(1), Rename(1)];
    FirstIsAdmitted(s, d1);
    RunOne(Run(s, a), Decide(1));
    var s1 := s.(lock := true, procs := s.procs[1 := Proc(map[], Admitted(d1))]);
    RunOne(s1, Register(2, d2));
    var s2 := s1.(procs := s1.procs[2 := Proc(map[], Waiting(d2))]);
    SecondRegisters(s1, d2);
    SecondIsAdmittedToo(s2, d2);
    RunOne(Run(s2, d), Decide(2));
    BothPublish(s2.(procs := s2.procs[2 := Proc(map[], Admitted(d2))]));
    RunAppend(s, a, b);
    RunAppend(s, a + b, c);
    RunAppend(s, a + b + c, d);
    RunAppend(s, a + b + c + d, e);
    RunAppend(s, a + b + c + d + e, f);
    RunAppend(s, a + b + c + d + e + f, g);
    assert EarlyReclaim() == a + b + c + d + e + f + g;
    if AllTimely(s, EarlyReclaim()) {
      NeverOverTheMaximum(s, EarlyReclaim());
    }
  }

  lemma SecondRegisters(s: Site, d: Descriptor)
    requires 2 in s.procs && s.procs[2] == Proc(map[], Outside)
    ensures Next(s, Register(2, d)) == s.(procs := s.procs[2 := Proc(map[], Waiting(d))])
  {
  }
}
