/** The control state of a connection: who is running in which phase, and the bounds of every queue. */
module ConnectionControl {
  import opened Options
  import opened Bytes
  import opened Protocol
  import opened Parcels
  import opened BulkQueue
  import opened ScrapeTask
  import opened BusyAnswers
  import opened WriterLoop
  import opened Connection
  import opened ConnectionInvariant
  import opened ConnectionBooks

  /** The session has dropped its ends of the queues. */
  predicate SaidFarewell(pc: SessionPc) {
    pc.Flushing? || pc.StoppingWriter? || pc.StoppingActor? || pc.Returned?
  }

  /** One scrape at a time: `active` exactly when a task is at work or its completion waits in the slot, never both. */
  predicate ScrapeOk(c: Conn) {
    && (RunOver(c.pc) ==> c.slot.None?)
    && (c.pc.Joining? ==> !c.active && c.slot.None? && TaskIdle(c))
    && (c.pc.Select? || c.pc.Queueing? ==>
          if c.active then c.slot.Some? == TaskIdle(c) else c.slot.None? && c.task.None?)
    && (SaidFarewell(c.pc) ==> c.task.None? && !c.active)
  }

  predicate PhaseOk(c: Conn) {
    && (c.senders <==> !SaidFarewell(c.pc))
    && (c.exit.Some? <==> RunOver(c.pc))
    && (c.writerDone ==> !WriterAlive(c))
    && (c.pc.StoppingActor? || c.pc.Returned? ==> !WriterAlive(c))
    && (c.pc.Returned? ==> !ActorAlive(c))
  }

  predicate QueuesOk(c: Conn) {
    && |c.writer.control| <= CONTROL_QUEUE_CAPACITY
    && |c.bulk.queue| <= BULK_QUEUE_CAPACITY
    && ActorBounded(c.actor)
    && (c.senders && ActorAlive(c) ==> c.actor.inputOpen)
    && (!WriterAlive(c) ==> c.writer.control == [] && c.bulk.queue == [])
  }

  predicate SessionConsistent(c: Conn) {
    if c.pc.Queueing? then Consistent(c.bulk, Session, c.pc.h) else !c.bulk.Waits(Session)
  }

  predicate SlotsOk(c: Conn) {
    WriterAlive(c) ==> c.bulk.Ok() && SessionConsistent(c) && ActorConsistent(c.actor, c.bulk)
  }

  predicate ControlOk(c: Conn) {
    ScrapeOk(c) && PhaseOk(c) && QueuesOk(c) && SlotsOk(c)
  }

  lemma {:induction false} TaskMovesKeepControl(cfg: Config, s: State, st: TaskStep)
    requires ControlOk(s.c) && NextTask(cfg, s, st).Some?
    ensures ControlOk(NextTask(cfg, s, st).value.c)
    ensures s.c.slot.None? || TaskNext(cfg, s.used, s.c.task.value, TaskView(s.c), st).value.sent.None?
  {
  }

  lemma {:induction false} ActorMovesKeepControl(cfg: Config, s: State, st: ActorStep)
    requires ControlOk(s.c) && NextActor(cfg, s, st).Some?
    ensures ControlOk(NextActor(cfg, s, st).value.c)
  {
    hide ActorNext;
    ActorStaysBounded(cfg, s.used, s.c.actor, s.c.bulk, ViewOfActor(s.c), st);
    ActorKeepsDead(cfg, s.used, s.c.actor, s.c.bulk, ViewOfActor(s.c), st);
    if WriterAlive(s.c) {
      ActorKeepsSlots(cfg, s.used, s.c.actor, s.c.bulk, ViewOfActor(s.c), st);
    }
  }

  /** A closed bulk queue stays empty, and the end of the actor is final. */
  lemma {:induction false} ActorKeepsDead(cfg: Config, used: int, a: BusyActor, bulk: Bulk, v: ActorView, st: ActorStep)
    requires ActorNext(cfg, used, a, bulk, v, st).Some?
    ensures !a.pc.Ended?
    ensures var a' := ActorNext(cfg, used, a, bulk, v, st).value.a;
            v.senders && a.inputOpen && !a'.pc.Ended? ==> a'.inputOpen
    ensures !v.writerOpen ==> ActorNext(cfg, used, a, bulk, v, st).value.bulk.queue == bulk.queue
  {
  }

  lemma {:induction false} WriterMovesKeepControl(s: State, st: WriterStep)
    requires ControlOk(s.c) && NextWriter(s, st).Some?
    ensures ControlOk(NextWriter(s, st).value.c)
  {
    hide WriterNext;
    WriterKeepsQueues(s.c.writer, s.c.bulk, ViewOfWriter(s.c), s.used, st);
    if WriterAlive(s.c) {
      WriterKeepsSlots(s.c.writer, s.c.bulk, ViewOfWriter(s.c), s.used, st);
    }
  }

  lemma {:induction false} WriterKeepsQueues(w: Writer, bulk: Bulk, v: WriterView, used: int, st: WriterStep)
    requires WriterNext(w, bulk, v, used, st).Some?
    ensures var r := WriterNext(w, bulk, v, used, st).value;
            && !w.pc.Stopped?
            && |r.w.control| <= |w.control| && |r.bulk.queue| <= |bulk.queue|
            && (r.w.pc.Stopped? ==> r.w.control == [] && r.bulk.queue == [])
  {
  }

  lemma {:induction false} LeaveKeepsControl(s: State, exit: Exit, farewell: Option<Control>)
    requires ControlOk(s.c) && s.c.pc.Select?
    ensures ControlOk(Leave(s, exit, farewell).c)
  {
  }

  lemma {:induction false} SayKeepsControl(c: Conn, m: Control)
    requires ControlOk(c)
    ensures ControlOk(Say(c, m))
  {
  }

  lemma {:induction false} RequestKeepsControl(cfg: Config, s: State, uid: bytes, uidCap: nat)
    requires ControlOk(s.c) && s.c.pc.Select?
    ensures ControlOk(ReceiveRequest(cfg, s, uid, uidCap).c)
  {
  }

  lemma {:induction false} SelectKeepsControl(cfg: Config, s: State, st: SessionStep)
    requires ControlOk(s.c) && s.c.pc.Select? && SelectNext(cfg, s, st).Some?
    ensures ControlOk(SelectNext(cfg, s, st).value.c)
  {
    hide Leave;
    hide Say;
    hide ReceiveRequest;
    match st {
      case ObserveShutdown => LeaveKeepsControl(s, Shutdown, Some(Close(ClientShutdown)));
      case ObserveWriterEnd => LeaveKeepsControl(State(s.c.(writerDone := true), s.used), WriterStopped, None);
      case HeartbeatTick(expired) =>
        if expired {
          LeaveKeepsControl(s, HeartbeatExpired, Some(Close(HeartbeatTimeout)));
        } else {
          SayKeepsControl(s.c, PingText);
          SayKeepsControl(Say(s.c, PingText), PingFrame);
        }
      case ReadEnd => LeaveKeepsControl(s, ReadEnded, None);
      case ReadClose => LeaveKeepsControl(s, ServerClosed, Some(Close(ServerEcho)));
      case ReadPingText => SayKeepsControl(s.c, PongText);
      case ReadPingFrame => SayKeepsControl(s.c, PongFrame);
      case ReadReady(uid) => SayKeepsControl(s.c, ReadyAnswer(uid));
      case ReadRequest(uid, uidCap) => RequestKeepsControl(cfg, s, uid, uidCap);
      case _ =>
    }
  }

  lemma {:induction false} JoinKeepsControl(s: State, out: Option<Parcel>, panicked: bool)
    requires ControlOk(s.c) && s.c.pc == Joining(out) && JoinNext(s, out, panicked).Some?
    ensures ControlOk(JoinNext(s, out, panicked).value.c)
  {
  }

  lemma {:induction false} AfterQueueingKeepsControl(s: State, r: QueueResult)
    requires ControlOk(s.c) && s.c.pc.Queueing?
    requires !WriterAlive(s.c) ==> r.bulk.queue == []
    requires WriterAlive(s.c) ==> r.bulk.Ok() && !r.out.Failed? && ActorConsistent(s.c.actor, r.bulk)
    requires r.out.Holding? && WriterAlive(s.c) ==> Consistent(r.bulk, Session, r.out.h)
    requires (r.out.Pushed? || r.out.GaveUp?) && WriterAlive(s.c) ==> !r.bulk.Waits(Session)
    ensures ControlOk(AfterQueueing(s, r).c)
  {
  }

  lemma {:induction false} QueueingKeepsControl(cfg: Config, s: State, q: QueueStep)
    requires ControlOk(s.c) && s.c.pc.Queueing?
    requires QueueNext(cfg, s.used, s.c.bulk, WriterAlive(s.c), Session, s.c.pc.h, q).Some?
    ensures ControlOk(AfterQueueing(s,
                QueueNext(cfg, s.used, s.c.bulk, WriterAlive(s.c), Session, s.c.pc.h, q).value).c)
  {
    hide AfterQueueing;
    if WriterAlive(s.c) {
      QueueKeepsSlots(cfg, s.used, s.c.bulk, WriterAlive(s.c), Session, s.c.pc.h, q);
    }
    AfterQueueingKeepsControl(s, QueueNext(cfg, s.used, s.c.bulk, WriterAlive(s.c), Session, s.c.pc.h, q).value);
  }

  lemma {:induction false} FarewellKeepsControl(c: Conn, farewell: Option<Control>)
    requires ControlOk(c) && c.pc.AbortingTask?
    ensures ControlOk(SayFarewell(c.(task := None, active := false), farewell))
  {
  }

  lemma {:induction false} SessionMovesKeepControl(cfg: Config, s: State, st: SessionStep)
    requires ControlOk(s.c) && NextSession(cfg, s, st).Some?
    ensures ControlOk(NextSession(cfg, s, st).value.c)
  {
    hide QueueNext;
    hide AfterQueueing;
    hide SayFarewell;
    hide SelectNext;
    hide JoinNext;
    match s.c.pc {
      case Select => SelectKeepsControl(cfg, s, st);
      case Joining(out) => JoinKeepsControl(s, out, st.panicked);
      case Queueing(h) => QueueingKeepsControl(cfg, s, st.q);
      case AbortingTask(farewell) => FarewellKeepsControl(s.c, farewell);
      case _ =>
    }
  }
}
