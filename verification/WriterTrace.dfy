/**
 What the peer sees: the register message first, control and bulk frames each in the order they were
 queued, nothing after a close frame, and everything queued when the writer drains its queues.
 */
module WriterTrace {
  import opened Options
  import opened Bytes
  import opened Protocol
  import opened Parcels
  import opened BulkQueue
  import opened ScrapeTask
  import opened BusyAnswers
  import opened WriterLoop
  import opened Connection
  import opened ConnectionInvariant
  import opened ConnectionControl

  predicate IsClose(f: Frame) {
    f.ControlFrame? && f.m.Close?
  }

  predicate NoClose(q: seq<Control>) {
    forall i :: 0 <= i < |q| ==> !q[i].Close?
  }

  /** What was queued is what was started followed by what still waits; after the end, what was started is a prefix. */
  predicate InOrder(w: Writer, b: Bulk) {
    if w.pc.Stopped? then Controls(w.started) <= w.queued && BulkKeys(w.started) <= b.pushed
    else Controls(w.started) + w.control == w.queued && BulkKeys(w.started) + Keys(b.queue) == b.pushed
  }

  predicate RegisterFirst(w: Writer) {
    && w.queued != [] && w.queued[0] == Register
    && (w.started != [] ==> w.started[0] == ControlFrame(Register))
    && (w.started == [] && !w.pc.Stopped? ==> w.controlOpen)
  }

  predicate CloseLast(w: Writer) {
    && (forall i :: 0 <= i < |w.started| - 1 ==> !IsClose(w.started[i]))
    && (w.pc.WritingControl? ==> w.started != [] && w.started[|w.started| - 1] == ControlFrame(w.pc.m))
    && (w.started != [] && IsClose(w.started[|w.started| - 1]) ==> w.pc.WritingControl? || w.pc.Stopped?)
  }

  /** Closed inputs are empty and cannot be written to any more. */
  predicate InputsOk(c: Conn) {
    && (!c.writer.controlOpen ==> c.writer.control == [] && !c.senders)
    && (!c.writer.bulkOpen ==> c.bulk.queue == [] && !c.senders && !ActorAlive(c))
    && (c.senders ==> NoClose(c.writer.control) && !(c.writer.pc.WritingControl? && c.writer.pc.m.Close?))
  }

  /** The writer ended by itself without a close frame: it had sent everything. */
  predicate Drained(w: Writer) {
    w.pc == Stopped(true) && forall i :: 0 <= i < |w.started| ==> !IsClose(w.started[i])
  }

  predicate DrainOk(w: Writer, b: Bulk) {
    Drained(w) ==> Controls(w.started) == w.queued && BulkKeys(w.started) == b.pushed
  }

  /** As long as no send failed and nobody aborted the writer, every frame started on a response was completed. */
  predicate CompletionOk(w: Writer, done: seq<Parcel>) {
    w.pc != Stopped(false) ==> forall i :: 0 <= i < |done| && done[i].frames == 1 ==> done[i].fate == Written
  }

  predicate TraceOk(c: Conn) {
    && InOrder(c.writer, c.bulk) && RegisterFirst(c.writer) && CloseLast(c.writer) && InputsOk(c)
    && DrainOk(c.writer, c.bulk) && CompletionOk(c.writer, c.done)
  }

  // ------------------------------------------------------------------ the writer

  lemma {:induction false} TakeControlInOrder(w: Writer, b: Bulk)
    requires w.pc.Idle? && w.control != [] && InOrder(w, b)
    ensures InOrder(TakeControl(w), b)
  {
    FramePush(w.started, ControlFrame(w.control[0]));
    assert w.control == [w.control[0]] + w.control[1..];
    assert BulkKeys(w.started) + [] == BulkKeys(w.started);
    hide Controls;
    hide BulkKeys;
  }

  lemma {:induction false} MoveHead(taken: seq<Key>, queue: seq<Parcel>, pushed: seq<Key>)
    requires queue != [] && taken + Keys(queue) == pushed
    ensures (taken + [KeyOf(queue[0])]) + Keys(queue[1..]) == pushed
  {
    var rest := Keys(queue[1..]);
    assert Keys(queue) == [KeyOf(queue[0])] + rest;
    hide Keys;
    assert (taken + [KeyOf(queue[0])]) + rest == taken + ([KeyOf(queue[0])] + rest);
  }

  lemma {:induction false} TakeBulkInOrder(w: Writer, b: Bulk)
    requires w.pc.Idle? && b.queue != [] && InOrder(w, b)
    ensures InOrder(TakeBulk(w, b.queue[0]), b.Pop())
  {
    MoveHead(BulkKeys(w.started), b.queue, b.pushed);
    FramePush(w.started, BulkFrame(KeyOf(b.queue[0])));
    assert Controls(w.started) + [] == Controls(w.started);
    hide Controls;
    hide BulkKeys;
    hide Keys;
  }

  /** Nothing started yet means that everything queued is still waiting. */
  lemma {:induction false} NothingStarted(w: Writer, b: Bulk)
    requires w.started == [] && !w.pc.Stopped? && InOrder(w, b)
    ensures w.queued == w.control
  {
  }

  lemma {:induction false} TakeControlKeepsTrace(w: Writer, b: Bulk)
    requires w.pc.Idle? && w.control != [] && InOrder(w, b) && RegisterFirst(w) && CloseLast(w)
    ensures var w' := TakeControl(w); InOrder(w', b) && RegisterFirst(w') && CloseLast(w')
  {
    hide InOrder;
    TakeControlInOrder(w, b);
    if w.started == [] {
      NothingStarted(w, b);
    }
  }

  lemma {:induction false} TakeBulkKeepsTrace(w: Writer, b: Bulk)
    requires w.pc.Idle? && b.queue != [] && (w.controlOpen ==> w.control == [])
    requires InOrder(w, b) && RegisterFirst(w) && CloseLast(w)
    ensures var w' := TakeBulk(w, b.queue[0]); InOrder(w', b.Pop()) && RegisterFirst(w') && CloseLast(w')
  {
    hide InOrder;
    TakeBulkInOrder(w, b);
    if w.started == [] {
      NothingStarted(w, b);
    }
  }

  lemma {:induction false} StopKeepsTrace(w: Writer, b: Bulk, clean: bool, why: Why, lost: seq<Parcel>, used: int)
    requires !w.pc.Stopped?
    requires InOrder(w, b) && RegisterFirst(w) && CloseLast(w)
    ensures var r := StopWriter(w, b, clean, why, lost, used);
            InOrder(r.w, r.bulk) && RegisterFirst(r.w) && CloseLast(r.w)
  {
  }

  lemma {:induction false} CloseControlKeepsTrace(w: Writer, b: Bulk)
    requires w.pc.Idle? && w.control == [] && InOrder(w, b) && RegisterFirst(w) && CloseLast(w)
    ensures var w' := w.(controlOpen := false); InOrder(w', b) && RegisterFirst(w') && CloseLast(w')
  {
    if w.started == [] {
      NothingStarted(w, b);
    }
  }

  lemma {:induction false} CloseBulkKeepsTrace(w: Writer, b: Bulk)
    requires w.pc.Idle? && InOrder(w, b) && RegisterFirst(w) && CloseLast(w)
    ensures var w' := w.(bulkOpen := false); InOrder(w', b) && RegisterFirst(w') && CloseLast(w')
  {
  }

  lemma {:induction false} AllStarted(w: Writer, b: Bulk)
    requires w.pc.Idle? && InOrder(w, b) && w.control == [] && b.queue == []
    ensures Controls(w.started) == w.queued && BulkKeys(w.started) == b.pushed
  {
  }

  lemma {:induction false} PollKeepsTrace(w: Writer, b: Bulk, v: WriterView, used: int)
    requires w.pc.Idle? && PollNext(w, b, v, used).Some?
    requires InOrder(w, b) && RegisterFirst(w) && CloseLast(w)
    requires (!w.controlOpen ==> w.control == []) && (!w.bulkOpen ==> b.queue == [])
    ensures var r := PollNext(w, b, v, used).value;
            InOrder(r.w, r.bulk) && RegisterFirst(r.w) && CloseLast(r.w) && DrainOk(r.w, r.bulk)
  {
    hide InOrder;
    if w.controlOpen && w.control != [] {
      TakeControlKeepsTrace(w, b);
    } else if w.controlOpen && !v.senders {
      CloseControlKeepsTrace(w, b);
    } else if w.bulkOpen && b.queue != [] {
      TakeBulkKeepsTrace(w, b);
    } else if w.bulkOpen {
      CloseBulkKeepsTrace(w, b);
    } else {
      StopKeepsTrace(w, b, true, ConnectionEnded, [], used);
      AllStarted(w, b);
    }
  }

  lemma {:induction false} SendEndKeepsTrace(w: Writer, b: Bulk, v: WriterView, used: int, st: WriterStep)
    requires !st.Poll? && WriterNext(w, b, v, used, st).Some?
    requires InOrder(w, b) && RegisterFirst(w) && CloseLast(w)
    ensures var r := WriterNext(w, b, v, used, st).value;
            InOrder(r.w, r.bulk) && RegisterFirst(r.w) && CloseLast(r.w) && DrainOk(r.w, r.bulk)
  {
    var r := WriterNext(w, b, v, used, st).value;
    if r.w.pc.Stopped? {
      StopKeepsTrace(w, b, r.w.pc.clean, WriterFailed, [], used);
      if r.w.pc.clean {
        assert IsClose(w.started[|w.started| - 1]);
      }
    }
  }

  lemma {:induction false} WriterKeepsInputs(c: Conn, used: int, st: WriterStep)
    requires InputsOk(c) && WriterNext(c.writer, c.bulk, ViewOfWriter(c), used, st).Some?
    ensures InputsOk(WithWriter(c, WriterNext(c.writer, c.bulk, ViewOfWriter(c), used, st).value))
  {
  }

  lemma {:induction false} CompletionConcat(w: Writer, a: seq<Parcel>, b: seq<Parcel>)
    requires CompletionOk(w, a) && CompletionOk(w, b)
    ensures CompletionOk(w, a + b)
  {
  }

  lemma {:induction false} WriterKeepsCompletion(
      cfg: Config, w: Writer, b: Bulk, v: WriterView, used: int, st: WriterStep, done: seq<Parcel>)
    requires CompletionOk(w, done) && AllQueued(cfg, b.queue) && WriterNext(w, b, v, used, st).Some?
    ensures var r := WriterNext(w, b, v, used, st).value; CompletionOk(r.w, done + r.lost)
  {
    var r := WriterNext(w, b, v, used, st).value;
    CompletionConcat(r.w, done, r.lost);
  }

  lemma {:induction false} WriterMovesKeepTrace(cfg: Config, s: State, st: WriterStep)
    requires TraceOk(s.c) && ParcelsOk(cfg, s.c) && NextWriter(s, st).Some?
    ensures TraceOk(NextWriter(s, st).value.c)
  {
    var v := ViewOfWriter(s.c);
    WriterKeepsInputs(s.c, s.used, st);
    WriterKeepsCompletion(cfg, s.c.writer, s.c.bulk, v, s.used, st, s.c.done);
    if st.Poll? {
      PollKeepsTrace(s.c.writer, s.c.bulk, v, s.used);
    } else {
      SendEndKeepsTrace(s.c.writer, s.c.bulk, v, s.used, st);
    }
  }

  // --------------------------------------------------------- task and busy actor

  predicate NoFrames(q: seq<Parcel>) {
    forall i :: 0 <= i < |q| ==> q[i].frames == 0
  }

  predicate Unframed(o: Option<Parcel>) {
    o.Some? ==> o.value.frames == 0
  }

  /** Only `done` changed, by parcels for which no frame was started. */
  lemma {:induction false} LosingKeepsTrace(c: Conn, c': Conn, lost: seq<Parcel>)
    requires TraceOk(c) && NoFrames(lost)
    requires c'.writer == c.writer && c'.bulk == c.bulk && c'.done == c.done + lost
    requires c'.senders == c.senders && (ActorAlive(c') ==> ActorAlive(c))
    ensures TraceOk(c')
  {
    hide InOrder;
    hide RegisterFirst;
    hide CloseLast;
    hide DrainOk;
    CompletionConcat(c.writer, c.done, lost);
  }

  lemma {:induction false} TaskMovesKeepTrace(cfg: Config, s: State, st: TaskStep)
    requires TraceOk(s.c) && ParcelsOk(cfg, s.c) && NextTask(cfg, s, st).Some?
    ensures TraceOk(NextTask(cfg, s, st).value.c)
  {
    hide TraceOk;
    TaskLosesNoFrame(cfg, s.used, s.c.task.value, TaskView(s.c), st);
    var r := TaskNext(cfg, s.used, s.c.task.value, TaskView(s.c), st).value;
    LosingKeepsTrace(s.c, WithTask(s.c, r), OptionSeq(r.lost));
  }

  lemma {:induction false} TaskLosesNoFrame(cfg: Config, used: int, t: Task, v: View, st: TaskStep)
    requires TaskOk(cfg, Some(t)) && TaskNext(cfg, used, t, v, st).Some?
    ensures NoFrames(OptionSeq(TaskNext(cfg, used, t, v, st).value.lost))
  {
  }

  /** A push, or any other move of a sender that is not the writer. */
  ghost predicate SenderMove(open: bool, b: Bulk, b': Bulk) {
    && (open ==> forall taken :: taken + Keys(b.queue) == b.pushed ==> taken + Keys(b'.queue) == b'.pushed)
    && (!open ==> b'.queue == b.queue && b'.pushed == b.pushed)
  }

  lemma {:induction false} SendersKeepOrder(c: Conn, b': Bulk)
    requires InOrder(c.writer, c.bulk) && DrainOk(c.writer, c.bulk) && SenderMove(WriterAlive(c), c.bulk, b')
    ensures InOrder(c.writer, b') && DrainOk(c.writer, b')
  {
  }

  lemma {:induction false} QueueIsSenderMove(
      cfg: Config, used: int, b: Bulk, open: bool, who: Who, h: Hold, st: QueueStep)
    requires QueueNext(cfg, used, b, open, who, h, st).Some?
    ensures SenderMove(open, b, QueueNext(cfg, used, b, open, who, h, st).value.bulk)
  {
    var b' := QueueNext(cfg, used, b, open, who, h, st).value.bulk;
    hide QueueNext;
    forall taken | open && taken + Keys(b.queue) == b.pushed
      ensures taken + Keys(b'.queue) == b'.pushed
    {
      QueueKeepsOrder(taken, cfg, used, b, open, who, h, st);
    }
    QueueKeepsOrder([], cfg, used, b, open, who, h, st);
  }

  lemma {:induction false} ActorMoveIsSenderMove(
      cfg: Config, used: int, a: BusyActor, b: Bulk, v: ActorView, st: ActorStep)
    requires ActorNext(cfg, used, a, b, v, st).Some?
    ensures SenderMove(v.writerOpen, b, ActorNext(cfg, used, a, b, v, st).value.bulk)
  {
    hide QueueNext;
    hide SenderMove;
    SenderIdle(v.writerOpen, b);
    if st.AnswerStep? {
      QueueIsSenderMove(cfg, used, b, v.writerOpen, Actor, a.pc.h, st.q);
    }
  }

  lemma {:induction false} SenderIdle(open: bool, b: Bulk)
    ensures SenderMove(open, b, b)
  {
  }

  lemma {:induction false} QueueLosesNoFrame(
      cfg: Config, used: int, b: Bulk, open: bool, who: Who, h: Hold, st: QueueStep)
    requires h.p.frames == 0 && QueueNext(cfg, used, b, open, who, h, st).Some?
    ensures var out := QueueNext(cfg, used, b, open, who, h, st).value.out;
            out.GaveUp? || out.Failed? ==> out.p.frames == 0
  {
  }

  /** Nothing the busy actor holds has had a frame. */
  lemma {:induction false} ActorHoldsNoFrame(cfg: Config, a: BusyActor)
    requires ActorParcelsOk(cfg, a)
    ensures NoFrames(a.queue) && NoFrames(a.posts) && (a.pc.Answering? ==> a.pc.h.p.frames == 0)
  {
    hide Covered;
    hide Fits;
  }

  lemma {:induction false} StopLosesNoFrame(a: BusyActor, b: Bulk, lost: seq<Parcel>, used: int)
    requires NoFrames(a.queue) && NoFrames(a.posts) && NoFrames(lost)
    ensures NoFrames(StopActor(a, b, lost, used).lost)
  {
  }

  lemma {:induction false} ActorLosesNoFrame(cfg: Config, used: int, a: BusyActor, b: Bulk, v: ActorView, st: ActorStep)
    requires ActorParcelsOk(cfg, a) && ActorNext(cfg, used, a, b, v, st).Some?
    ensures NoFrames(ActorNext(cfg, used, a, b, v, st).value.lost)
  {
    hide QueueNext;
    hide ActorParcelsOk;
    hide StopActor;
    ActorHoldsNoFrame(cfg, a);
    StopLosesNoFrame(a, b, [], used);
    match st {
      case AnswerStep(q) =>
        QueueLosesNoFrame(cfg, used, b, v.writerOpen, Actor, a.pc.h, q);
        var r := QueueNext(cfg, used, b, v.writerOpen, Actor, a.pc.h, q).value;
        if r.out.Failed? {
          StopLosesNoFrame(a, r.bulk, [r.out.p], r.used);
        }
      case AbortActor =>
        if a.pc.Answering? {
          StopLosesNoFrame(a, b, [Drop(a.pc.h.p, ConnectionEnded)], used - a.pc.h.p.held - a.pc.h.p.extra);
        }
      case _ =>
    }
  }

  lemma {:induction false} ActorMovesKeepTrace(cfg: Config, s: State, st: ActorStep)
    requires TraceOk(s.c) && ParcelsOk(cfg, s.c) && NextActor(cfg, s, st).Some?
    requires !WriterAlive(s.c) ==> s.c.bulk.queue == []
    ensures TraceOk(NextActor(cfg, s, st).value.c)
  {
    var v := ViewOfActor(s.c);
    ActorMoveIsSenderMove(cfg, s.used, s.c.actor, s.c.bulk, v, st);
    ActorLosesNoFrame(cfg, s.used, s.c.actor, s.c.bulk, v, st);
    ActorKeepsDead(cfg, s.used, s.c.actor, s.c.bulk, v, st);
    var r := ActorNext(cfg, s.used, s.c.actor, s.c.bulk, v, st).value;
    hide ActorNext;
    hide SenderMove;
    SendersKeepOrder(s.c, r.bulk);
    CompletionConcat(s.c.writer, s.c.done, r.lost);
  }

  // -------------------------------------------------------------------- session

  lemma {:induction false} SayKeepsWriter(w: Writer, b: Bulk, m: Control)
    requires InOrder(w, b) && RegisterFirst(w) && CloseLast(w) && DrainOk(w, b)
    ensures var w' := TryControl(w, m);
            InOrder(w', b) && RegisterFirst(w') && CloseLast(w') && DrainOk(w', b)
  {
  }

  lemma {:induction false} SayKeepsTrace(c: Conn, m: Control)
    requires TraceOk(c) && c.senders && !m.Close?
    ensures TraceOk(Say(c, m))
  {
    SayKeepsWriter(c.writer, c.bulk, m);
    hide InOrder;
    hide RegisterFirst;
    hide CloseLast;
    hide DrainOk;
  }

  lemma {:induction false} LeaveKeepsTrace(s: State, exit: Exit, farewell: Option<Control>)
    requires TraceOk(s.c) && Unframed(SlotParcel(s.c.slot))
    ensures TraceOk(Leave(s, exit, farewell).c)
  {
    hide TraceOk;
    LosingKeepsTrace(s.c, Leave(s, exit, farewell).c, OptionSeq(DropOption(SlotParcel(s.c.slot), ConnectionEnded)));
  }

  lemma {:induction false} RequestKeepsTrace(cfg: Config, s: State, uid: bytes, uidCap: nat)
    requires TraceOk(s.c)
    ensures TraceOk(ReceiveRequest(cfg, s, uid, uidCap).c)
  {
    hide TraceOk;
    var c' := ReceiveRequest(cfg, s, uid, uidCap).c;
    LosingKeepsTrace(s.c, c', c'.done[|s.c.done|..]);
  }

  lemma {:induction false} FarewellKeepsTrace(c: Conn, farewell: Option<Control>)
    requires TraceOk(c) && c.senders
    ensures TraceOk(SayFarewell(c.(task := None, active := false), farewell))
  {
    if farewell.Some? {
      SayKeepsWriter(c.writer, c.bulk, farewell.value);
    }
    hide InOrder;
    hide RegisterFirst;
    hide CloseLast;
    hide DrainOk;
  }

  lemma {:induction false} SelectKeepsTrace(cfg: Config, s: State, st: SessionStep)
    requires TraceOk(s.c) && s.c.senders && ParcelsOk(cfg, s.c) && SelectNext(cfg, s, st).Some?
    ensures TraceOk(SelectNext(cfg, s, st).value.c)
  {
    assert Unframed(SlotParcel(s.c.slot));
    var c := s.c;
    LosingKeepsTrace(c, c.(writerDone := true), []);
    if st.TakeCompletion? && c.slot.Some? {
      LosingKeepsTrace(c, c.(active := false, slot := None, pc := Joining(c.slot.value)), []);
    }
    hide TraceOk;
    hide ParcelsOk;
    hide Leave;
    hide TryControl;
    hide ReceiveRequest;
    match st {
      case ObserveShutdown => LeaveKeepsTrace(s, Shutdown, Some(Close(ClientShutdown)));
      case ObserveWriterEnd => LeaveKeepsTrace(State(c.(writerDone := true), s.used), WriterStopped, None);
      case HeartbeatTick(expired) =>
        if expired {
          LeaveKeepsTrace(s, HeartbeatExpired, Some(Close(HeartbeatTimeout)));
        } else {
          SayKeepsTrace(c, PingText);
          SayKeepsTrace(Say(c, PingText), PingFrame);
        }
      case ReadEnd => LeaveKeepsTrace(s, ReadEnded, None);
      case ReadClose => LeaveKeepsTrace(s, ServerClosed, Some(Close(ServerEcho)));
      case ReadPingText => SayKeepsTrace(c, PongText);
      case ReadPingFrame => SayKeepsTrace(c, PongFrame);
      case ReadReady(uid) => SayKeepsTrace(c, ReadyAnswer(uid));
      case ReadRequest(uid, uidCap) => RequestKeepsTrace(cfg, s, uid, uidCap);
      case _ =>
    }
  }

  lemma {:induction false} JoinKeepsTrace(s: State, out: Option<Parcel>, panicked: bool)
    requires TraceOk(s.c) && Unframed(out) && Unframed(SlotParcel(s.c.slot)) && JoinNext(s, out, panicked).Some?
    ensures TraceOk(JoinNext(s, out, panicked).value.c)
  {
    hide TraceOk;
    var lost := OptionSeq(DropOption(out, ConnectionEnded));
    if panicked {
      var c := s.c.(task := None, done := s.c.done + lost);
      LosingKeepsTrace(s.c, c, lost);
      LeaveKeepsTrace(State(c, s.used - Maybe(Reserved, out)), TaskFailed, None);
    } else {
      LosingKeepsTrace(s.c, JoinNext(s, out, panicked).value.c, []);
    }
  }

  lemma {:induction false} AfterQueueingKeepsTrace(s: State, r: QueueResult)
    requires TraceOk(s.c) && s.c.senders && Unframed(SlotParcel(s.c.slot))
    requires SenderMove(WriterAlive(s.c), s.c.bulk, r.bulk)
    requires r.out.GaveUp? || r.out.Failed? ==> r.out.p.frames == 0
    ensures TraceOk(AfterQueueing(s, r).c)
  {
    SendersKeepOrder(s.c, r.bulk);
    var c := s.c.(bulk := r.bulk);
    assert TraceOk(c);
    hide TraceOk;
    hide SenderMove;
    match r.out {
      case Holding(h) => LosingKeepsTrace(c, c.(pc := Queueing(h)), []);
      case Pushed => LosingKeepsTrace(c, c.(pc := Select), []);
      case GaveUp(p) => LosingKeepsTrace(c, c.(pc := Select, done := c.done + [p]), [p]);
      case Failed(p) =>
        LosingKeepsTrace(c, c.(pc := Select, done := c.done + [p]), [p]);
        LeaveKeepsTrace(State(c.(pc := Select, done := c.done + [p]), r.used), QueueFailed, None);
    }
  }

  lemma {:induction false} SessionMovesKeepTrace(cfg: Config, s: State, st: SessionStep)
    requires TraceOk(s.c) && ParcelsOk(cfg, s.c) && PhaseOk(s.c) && NextSession(cfg, s, st).Some?
    ensures TraceOk(NextSession(cfg, s, st).value.c)
  {
    assert Unframed(SlotParcel(s.c.slot)) && Unframed(SessionParcel(s.c.pc));
    hide TraceOk;
    hide ParcelsOk;
    hide SelectNext;
    hide JoinNext;
    hide QueueNext;
    hide AfterQueueing;
    hide SayFarewell;
    match s.c.pc {
      case Select => SelectKeepsTrace(cfg, s, st);
      case Joining(out) => JoinKeepsTrace(s, out, st.panicked);
      case Queueing(h) =>
        QueueIsSenderMove(cfg, s.used, s.c.bulk, WriterAlive(s.c), Session, h, st.q);
        QueueLosesNoFrame(cfg, s.used, s.c.bulk, WriterAlive(s.c), Session, h, st.q);
        AfterQueueingKeepsTrace(s, QueueNext(cfg, s.used, s.c.bulk, WriterAlive(s.c), Session, h, st.q).value);
      case AbortingTask(farewell) => FarewellKeepsTrace(s.c, farewell);
      case Flushing => LosingKeepsTrace(s.c, NextSession(cfg, s, st).value.c, []);
      case StoppingWriter => LosingKeepsTrace(s.c, NextSession(cfg, s, st).value.c, []);
      case StoppingActor => LosingKeepsTrace(s.c, NextSession(cfg, s, st).value.c, []);
      case Returned =>
    }
  }
}
