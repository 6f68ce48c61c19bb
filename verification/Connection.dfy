/**
 One worker connection as a concurrent step system: the session loop, the scrape task with its
 one-slot completion channel, the busy-answer actor and the writer. Server, exporter, POST endpoint,
 network and allocator are adversarial: any step that is enabled may be taken.
 */
module Connection {
  import opened Options
  import opened Bytes
  import opened Protocol
  import opened Parcels
  import opened BulkQueue
  import opened ScrapeTask
  import opened BusyAnswers
  import opened WriterLoop

  datatype Exit = Shutdown | WriterStopped | HeartbeatExpired | ReadEnded | ServerClosed | QueueFailed | TaskFailed

  datatype SessionPc =
    | Select                                 // the select loop
    | Joining(out: Option<Parcel>)           // a completion was received, its task is being joined
    | Queueing(h: Hold)                      // inside queue_ws_response
    | AbortingTask(farewell: Option<Control>)
    | Flushing
    | StoppingWriter
    | StoppingActor
    | Returned

  /**
   `senders` says whether the session still holds its ends of the three outgoing queues. `done` holds
   the parcels that met their fate; `posted` is the history of POSTs handed to the HTTP client.
   */
  datatype Conn = Conn(
    pc: SessionPc, active: bool, writerDone: bool, senders: bool, exit: Option<Exit>,
    task: Option<Task>, slot: Option<Option<Parcel>>,
    actor: BusyActor, bulk: Bulk, writer: Writer,
    next: nat, done: seq<Parcel>, posted: seq<Key>)

  /** A connection and the number of bytes taken from the memory budget it shares with others. */
  datatype State = State(c: Conn, used: int)

  /** Right after the register message was queued and the tasks were spawned. */
  const INIT: Conn := Conn(
    Select, false, false, true, None, None, None,
    BusyActor([], true, [], Serving), EMPTY, NEW_WRITER, 0, [], [])

  predicate WriterAlive(c: Conn) {
    !c.writer.pc.Stopped?
  }

  predicate ActorAlive(c: Conn) {
    !c.actor.pc.Ended?
  }

  /** `Session::run` has returned; its completion receiver is gone. */
  predicate RunOver(pc: SessionPc) {
    pc.AbortingTask? || pc.Flushing? || pc.StoppingWriter? || pc.StoppingActor? || pc.Returned?
  }

  // ------------------------------------------------- task, actor and writer steps

  function TaskView(c: Conn): View {
    View(RunOver(c.pc), c.slot.None?, c.pc.AbortingTask?)
  }

  function WithTask(c: Conn, r: TaskResult): Conn {
    c.(task := r.task, slot := if r.sent.Some? then r.sent else c.slot,
       done := c.done + OptionSeq(r.lost), posted := c.posted + OptionSeq(r.posted))
  }

  function NextTask(cfg: Config, s: State, st: TaskStep): Option<State> {
    if s.c.task.None? then None
    else
      var r :- TaskNext(cfg, s.used, s.c.task.value, TaskView(s.c), st);
      Some(State(WithTask(s.c, r), r.used))
  }

  function ViewOfActor(c: Conn): ActorView {
    ActorView(WriterAlive(c), c.senders, c.pc.StoppingActor?)
  }

  function WithActor(c: Conn, r: ActorResult): Conn {
    c.(actor := r.a, bulk := r.bulk, done := c.done + r.lost, posted := c.posted + OptionSeq(r.posted))
  }

  function NextActor(cfg: Config, s: State, st: ActorStep): Option<State> {
    var r :- ActorNext(cfg, s.used, s.c.actor, s.c.bulk, ViewOfActor(s.c), st);
    Some(State(WithActor(s.c, r), r.used))
  }

  function ViewOfWriter(c: Conn): WriterView {
    WriterView(c.senders, ActorAlive(c), c.pc.StoppingWriter?)
  }

  function WithWriter(c: Conn, r: WriterResult): Conn {
    c.(writer := r.w, bulk := r.bulk, done := c.done + r.lost)
  }

  function NextWriter(s: State, st: WriterStep): Option<State> {
    var r :- WriterNext(s.c.writer, s.c.bulk, ViewOfWriter(s.c), s.used, st);
    Some(State(WithWriter(s.c, r), r.used))
  }

  // -------------------------------------------------------------------- session

  datatype SessionStep =
    | ObserveShutdown
    | ObserveWriterEnd
    | HeartbeatTick(expired: bool)
    | TakeCompletion
    | JoinTask(panicked: bool)
    | ReadEnd
    | ReadClose
    | ReadPingText
    | ReadPingFrame
    | ReadIgnored                               // pong, binary, unknown, invalid JSON or an oversized identifier
    | ReadReady(uid: bytes)
    | ReadRequest(uid: bytes, uidCap: nat)      // a validated request whose uid occupies `uidCap` bytes
    | QueueingStep(q: QueueStep)
    | FinishTask
    | FlushEnds(timedOut: bool)
    | WriterJoined
    | ActorJoined

  /** `try_send` on the control queue; a full or closed queue loses the message. */
  function TryControl(w: Writer, m: Control): Writer {
    if !w.pc.Stopped? && |w.control| < CONTROL_QUEUE_CAPACITY then
      w.(control := w.control + [m], queued := w.queued + [m])
    else w
  }

  function Say(c: Conn, m: Control): Conn {
    c.(writer := TryControl(c.writer, m))
  }

  /** `Session::run` returns: the completion slot is dropped with its receiver, then `finish` aborts the scrape task. */
  function Leave(s: State, exit: Exit, farewell: Option<Control>): State {
    var lost := SlotParcel(s.c.slot);
    State(s.c.(pc := AbortingTask(farewell), exit := Some(exit), slot := None,
               done := s.c.done + OptionSeq(DropOption(lost, ConnectionEnded))),
          s.used - Maybe(Reserved, lost))
  }

  function NewScrape(id: nat, uid: bytes): Parcel {
    Parcel(id, Scrape, Asked, Pending, ErrorFor(uid), ErrorFor(uid), 0, 0, 0, 0, 0, 0, false, false, 0)
  }

  function NewBusy(id: nat, uid: bytes, uidCap: nat): Parcel {
    var r := ResourceResponse(uid, 503, []);
    Parcel(id, Busy, Answered, Pending, r, r, uidCap, 0, 0, uidCap, 0, 0, false, false, 0)
  }

  /**
   `answer_busy`: wire 3 hands the answer to the actor; older wires and a full or closed queue answer over the
   WebSocket.
   */
  function AnswerBusy(cfg: Config, c: Conn, p: Parcel): Conn {
    if cfg.protocol == 3 && ActorAlive(c) && |c.actor.queue| < BUSY_RESPONSE_QUEUE_CAPACITY then
      c.(actor := c.actor.(queue := c.actor.queue + [p]))
    else c.(pc := Queueing(StartQueueing(p)))
  }

  function ReceiveRequest(cfg: Config, s: State, uid: bytes, uidCap: nat): State {
    var c := s.c.(next := s.c.next + 1);
    if !c.active then
      State(c.(active := true, task := Some(Calling(NewScrape(s.c.next, uid)))), s.used)
    else
      var p := NewBusy(s.c.next, uid, uidCap);
      if s.used + uidCap <= cfg.limit then State(AnswerBusy(cfg, c, p), s.used + uidCap)
      else State(c.(done := c.done + [Drop(p, MemoryRefused)]), s.used)
  }

  /** What a text message makes the session do; `uidCap` is what the allocator gave the uid of a request. */
  function TextStep(m: IncomingMessage, uidCap: nat): SessionStep {
    if Validate(m).Some? then ReadIgnored
    else
      match m
      case Ping => ReadPingText
      case Pong => ReadIgnored
      case Unknown => ReadIgnored
      case Ready(uid) => ReadReady(uid)
      case Request(uid, _) => ReadRequest(uid, uidCap)
  }

  /** The select loop takes one ready branch; which one is not specified. */
  function SelectNext(cfg: Config, s: State, st: SessionStep): Option<State> {
    var c := s.c;
    match st
    case ObserveShutdown => Some(Leave(s, Shutdown, Some(Close(ClientShutdown))))
    case ObserveWriterEnd =>
      if WriterAlive(c) then None else Some(Leave(State(c.(writerDone := true), s.used), WriterStopped, None))
    case HeartbeatTick(expired) =>
      if expired then Some(Leave(s, HeartbeatExpired, Some(Close(HeartbeatTimeout))))
      else Some(State(Say(Say(c, PingText), PingFrame), s.used))
    case TakeCompletion =>
      if !c.active || c.slot.None? then None
      else Some(State(c.(active := false, slot := None, pc := Joining(c.slot.value)), s.used))
    case ReadEnd => Some(Leave(s, ReadEnded, None))
    case ReadClose => Some(Leave(s, ServerClosed, Some(Close(ServerEcho))))
    case ReadPingText => Some(State(Say(c, PongText), s.used))
    case ReadPingFrame => Some(State(Say(c, PongFrame), s.used))
    case ReadIgnored => Some(s)
    case ReadReady(uid) =>
      if |uid| > MAX_UID_SIZE then None
      else if cfg.protocol >= 2 && !c.active then Some(State(Say(c, ReadyAnswer(uid)), s.used))
      else Some(s)
    case ReadRequest(uid, uidCap) =>
      if |uid| > MAX_UID_SIZE || uidCap < |uid| then None else Some(ReceiveRequest(cfg, s, uid, uidCap))
    case _ => None
  }

  /** The join of a completed task; it fails only when the scrape task panicked. */
  function JoinNext(s: State, out: Option<Parcel>, panicked: bool): Option<State> {
    var c := s.c.(task := None);
    if s.c.task.Some? && !s.c.task.value.Sent? then None
    else if panicked then
      Some(Leave(State(c.(done := c.done + OptionSeq(DropOption(out, ConnectionEnded))),
          s.used - Maybe(Reserved, out)), TaskFailed, None))
    else
      match out
      case None => Some(State(c.(pc := Select), s.used))
      case Some(p) => Some(State(c.(pc := Queueing(StartQueueing(p))), s.used))
  }

  function AfterQueueing(s: State, r: QueueResult): State {
    var c := s.c.(bulk := r.bulk);
    match r.out
    case Holding(h) => State(c.(pc := Queueing(h)), r.used)
    case Pushed => State(c.(pc := Select), r.used)
    case GaveUp(p) => State(c.(pc := Select, done := c.done + [p]), r.used)
    case Failed(p) => Leave(State(c.(pc := Select, done := c.done + [p]), r.used), QueueFailed, None)
  }

  /**
   `finish` once the scrape task is gone: drop the senders; queue the farewell if there is one, it fits and the
   writer is healthy.
   */
  function SayFarewell(c: Conn, farewell: Option<Control>): Conn {
    if c.writerDone then c.(senders := false, pc := StoppingActor)
    else if farewell.Some? && WriterAlive(c) && |c.writer.control| < CONTROL_QUEUE_CAPACITY then
      Say(c, farewell.value).(senders := false, pc := Flushing)
    else c.(senders := false, pc := StoppingWriter)
  }

  function NextSession(cfg: Config, s: State, st: SessionStep): Option<State> {
    var c := s.c;
    match (c.pc, st)
    case (Select, _) => SelectNext(cfg, s, st)
    case (Joining(out), JoinTask(panicked)) => JoinNext(s, out, panicked)
    case (Queueing(h), QueueingStep(q)) =>
      var r :- QueueNext(cfg, s.used, c.bulk, WriterAlive(c), Session, h, q);
      Some(AfterQueueing(s, r))
    case (AbortingTask(farewell), FinishTask) =>
      if c.task.None? || c.task.value.Sent? then
        Some(State(SayFarewell(c.(task := None, active := false), farewell), s.used))
      else None
    case (Flushing, FlushEnds(timedOut)) =>
      if timedOut then Some(State(c.(pc := StoppingWriter), s.used))
      else if WriterAlive(c) then None
      else Some(State(c.(pc := StoppingActor), s.used))
    case (StoppingWriter, WriterJoined) => if WriterAlive(c) then None else Some(State(c.(pc := StoppingActor), s.used))
    case (StoppingActor, ActorJoined) => if ActorAlive(c) then None else Some(State(c.(pc := Returned), s.used))
    case _ => None
  }

  // ------------------------------------------------------------------ the system

  datatype Step =
    | TaskMoves(t: TaskStep)
    | WriterMoves(w: WriterStep)
    | ActorMoves(a: ActorStep)
    | SessionMoves(m: SessionStep)

  function Next(cfg: Config, s: State, st: Step): Option<State> {
    match st
    case TaskMoves(t) => NextTask(cfg, s, t)
    case WriterMoves(w) => NextWriter(s, w)
    case ActorMoves(a) => NextActor(cfg, s, a)
    case SessionMoves(m) => NextSession(cfg, s, m)
  }

  // ------------------------------------------------------------ sums over all places

  function SessionParcel(pc: SessionPc): Option<Parcel> {
    match pc
    case Joining(out) => out
    case Queueing(h) => Some(h.p)
    case _ => None
  }

  /** The sum over everything that is still on its way. */
  function LiveTotal(m: Measure, c: Conn): nat {
    Maybe(m, TaskParcel(c.task)) + Maybe(m, SlotParcel(c.slot)) + Maybe(m, SessionParcel(c.pc))
    + ActorTotal(m, c.actor) + Total(m, c.bulk.queue) + Maybe(m, WriterParcel(c.writer.pc))
  }

  /** The same over every parcel there ever was. */
  function AllTotal(m: Measure, c: Conn): nat {
    LiveTotal(m, c) + Total(m, c.done)
  }

  /** What the request counter and the histories of POSTs and frames say about a measure. */
  function LogTotal(m: Measure, c: Conn): nat {
    match m
    case Requests(id) => if id < c.next then 1 else 0
    case Items => 0
    case Reserved => 0
    case Capacity => 0
    case _ => if OfPosts(m) then CountKeys(m, c.posted) else FramesCounted(m, c.writer)
  }
}
