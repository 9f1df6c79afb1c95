/**
 * One live Claude tool session and what every event does to it: the control channel's pending
 * frames, the one-place hand-off queue, the gate, the parked call and its deadline.
 */
module ClaudeSpec {
  import opened Options
  import opened OrderedMaps
  import opened BrokerKeys
  import opened BrokerSpec

  type SessionKey = string
  type FrameId = string
  type Socket = nat

  // ---- the control channel ----

  datatype Body = Text(text: string) | Refused | Expiry

  /** A line written back to the bridge process. */
  datatype Reply = Reply(frame: FrameId, body: Body)

  datatype Control = Control(
    pending: map<FrameId, Socket>,
    dead: set<Socket>,
    closed: bool,
    replies: seq<Reply>)

  const MAX_PENDING: nat := 16

  datatype Admission = Accepted | Duplicate | Bounded

  function Answered(c: Control, socket: Socket, f: FrameId, body: Body): Control {
    if socket in c.dead then c else c.(replies := c.replies + [Reply(f, body)])
  }

  /** A well-formed, authenticated frame: a repeated id kills the connection, a full table refuses. */
  function Admit(c: Control, f: FrameId, socket: Socket): (Control, Admission) {
    if f in c.pending then (c.(dead := c.dead + {socket}), Duplicate)
    else if |c.pending| >= MAX_PENDING then (Answered(c, socket, f, Refused), Bounded)
    else (c.(pending := c.pending[f := socket]), Accepted)
  }

  /** `resolve`, `reject` and `expire`: remove one pending frame and answer it. */
  function Release(c: Control, f: FrameId, body: Body): (Control, bool) {
    if f !in c.pending then (c, false)
    else (Answered(c.(pending := c.pending - {f}), c.pending[f], f, body), true)
  }

  /** Closing destroys the sockets that still own a frame and forgets their frames unanswered. */
  function CloseControl(c: Control): Control {
    if c.closed then c
    else c.(closed := true, dead := c.dead + c.pending.Values, pending := map[])
  }

  /** A connection is gone: its frames are dropped; reports whether it owned any. */
  function DropSocket(c: Control, socket: Socket): (Control, bool) {
    var kept := map f | f in c.pending && c.pending[f] != socket :: c.pending[f];
    (c.(pending := kept, dead := c.dead + {socket}), kept != c.pending)
  }

  // ---- the session ----

  /** The hand-off promise of the drain: none taken, registered as a waiter, or resolved with a frame. */
  datatype Handoff = NoPromise | Waiting | Ready(frame: FrameId)

  /**
   * Where the drain generator is: not running, working on a message, at the race, or about to run on a call it lost
   * the race to.
   */
  datatype Drain = Idle | Busy | Racing | Resuming

  datatype Session = Session(
    profile: Profile,
    requestId: string,
    drain: Drain,
    handoff: Handoff,
    queue: seq<FrameId>,
    gate: bool,
    parked: Option<FrameId>,
    publicId: Option<string>,
    ttl: bool,
    terminated: bool,
    control: Control,
    // tapes the program does not keep: the frames seen, and the public id minted when a frame was parked
    seen: set<FrameId>,
    parkedAs: map<FrameId, string>)

  /** Whose call an entry of the shared broker belongs to. */
  datatype Owner = ClaudeSession(key: SessionKey) | OtherAdapter

  /** What sessions share: the broker, the two session maps, and the bound on parked sessions. */
  datatype Shared = Shared(
    broker: State<Owner>,
    byPublic: map<string, SessionKey>,
    byRequest: map<string, SessionKey>,
    maxLive: nat)

  const QUEUE_SIZE: nat := 1

  /** `BoundedQueue.tryPush` as the session sees it. */
  function TryPush(s: Session, f: FrameId): (Session, bool) {
    if s.handoff == Waiting
        then (s.(handoff := Ready(f), drain := if s.drain == Racing then Resuming else s.drain), true)
    else if |s.queue| >= QUEUE_SIZE then (s, false)
    else (s.(queue := s.queue + [f]), true)
  }

  function Rejected(s: Session, f: FrameId): Session {
    s.(control := Release(s.control, f, Refused).0)
  }

  /** A frame was admitted: refused while a call is parked or the queue is full. */
  function OnToolCall(s: Session, f: FrameId): Session {
    if s.gate then Rejected(s, f)
    else
      var (pushed, ok) := TryPush(s, f);
      if ok then pushed else Rejected(s, f)
  }

  function Arrive(s: Session, f: FrameId, socket: Socket): Session {
    var (c, admission) := Admit(s.control, f, socket);
    var s1 := s.(control := c, seen := s.seen + {f});
    if admission == Accepted then OnToolCall(s1, f) else s1
  }

  /** The top of the drain loop: leave when aborted, else make sure a hand-off is requested. */
  function Loop(s: Session): Session {
    if s.handoff != NoPromise then s.(drain := if s.handoff == Waiting then Racing else Resuming)
    else if s.queue != [] then s.(handoff := Ready(s.queue[0]), queue := s.queue[1..], drain := Resuming)
    else s.(handoff := Waiting, drain := Racing)
  }


  function ScopeOf(key: SessionKey): Filter {
    Filter(Some(Claude), Some(key))
  }

  /** The synchronous part of `closeSession`. */
  function Close(sh: Shared, key: SessionKey, s: Session): (Shared, Session)
    requires MapsValid(sh.broker)
  {
    if s.terminated then (sh, s)
    else
      var s1 := if s.parked.Some? then Rejected(s, s.parked.value) else s;
      (sh.(byRequest := sh.byRequest - {s.requestId},
           byPublic := if s.publicId.Some? then sh.byPublic - {s.publicId.value} else sh.byPublic,
           broker := CancelScope(sh.broker, ScopeOf(key))),
       s1.(terminated := true, ttl := false, parked := None, publicId := None))
  }

  function KeyFor(key: SessionKey, s: Session, pid: string): BrokerKey {
    BrokerKey(Some(s.profile), Claude, key, None, pid, Some(pid))
  }

  /** The three guards a call passes before it is parked. */
  predicate Parks(sh: Shared, key: SessionKey, s: Session, pid: string)
    requires MapsValid(sh.broker)
  {
    && !s.gate
    && |sh.byPublic| < sh.maxLive
    && Create(sh.broker, KeyFor(key, s, pid), Some(ClaudeSession(key)), false).1 == None
  }

  /**
   * `parkToolCall` for the frame just handed off, under a freshly minted public id. It does not look at `terminated`.
   */
  function Park(sh: Shared, key: SessionKey, s: Session, f: FrameId, pid: string): (Shared, Session)
    requires MapsValid(sh.broker)
  {
    if s.gate || |sh.byPublic| >= sh.maxLive then Close(sh, key, Rejected(s, f))
    else
      var (broker, refusal) := Create(sh.broker, KeyFor(key, s, pid), Some(ClaudeSession(key)), false);
      var sh1 := sh.(broker := broker);
      if refusal.Some? then
        // a refused creation may still have dropped an old terminal mark
        assert MapsValid(sh1.broker);
        Close(sh1, key, Rejected(s.(gate := false, parked := None, publicId := None), f))
      else
        (sh1.(byPublic := sh1.byPublic[pid := key]),
         s.(gate := true, parked := Some(f), publicId := Some(pid), ttl := true, parkedAs := s.parkedAs[f := pid]))
  }

  /** The drain resumes on a call: the promise is spent, the call is parked or refused, and the drain ends. */
  function Resume(sh: Shared, key: SessionKey, s: Session, pid: string): (Shared, Session)
    requires MapsValid(sh.broker) && s.handoff.Ready?
  {
    Park(sh, key, s.(handoff := NoPromise, drain := Idle), s.handoff.frame, pid)
  }

  /** The parked frame gets the result; the gate opens and the deadline goes only if the frame was still pending. */
  function Deliver(s: Session, text: string): Session {
    if s.parked == None then s
    else
      var (c, delivered) := Release(s.control, s.parked.value, Text(text));
      var s1 := s.(parked := None, control := c);
      if delivered then s1.(gate := false, ttl := false) else s1
  }

  /** What a resolved claim does to the session: rebind it to this request, deliver the result, and drain on. */
  function Continue(sh: Shared, key: SessionKey, s: Session, pid: string, rid: string,
      text: string): (Shared, Session) {
    var sh1 := sh.(byPublic := sh.byPublic - {pid}, byRequest := (sh.byRequest - {s.requestId})[rid := key]);
    (sh1, Deliver(s.(publicId := None, requestId := rid, drain := Busy), text))
  }

  /** Every call of this provider, whatever its session. */
  function EveryClaude(): Filter {
    Filter(Some(Claude), None)
  }

  /**
   * What a resolved claim of another adapter's call does here. Its object is bound to the request and
   * drained like a session, which fails at once, and closing it cancels the scope of its session key.
   * It has none, so the scope is the whole provider.
   */
  function ContinueForeign(sh: Shared, pid: string, rid: string): Shared
    requires MapsValid(sh.broker)
  {
    sh.(byPublic := sh.byPublic - {pid}, byRequest := sh.byRequest - {rid},
        broker := CancelScope(sh.broker, EveryClaude()))
  }
}
