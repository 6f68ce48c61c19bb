/**
 What every step of a connection keeps: parcels fit their places, the books balance, the budget
 ledger is exact, the queues are bounded and the control state is coherent.
 */
module ConnectionInvariant {
  import opened Options
  import opened Bytes
  import opened Protocol
  import opened Parcels
  import opened BulkQueue
  import opened ScrapeTask
  import opened BusyAnswers
  import opened WriterLoop
  import opened Connection

  // -------------------------------------------------------------------- parcels

  predicate SessionParcelOk(cfg: Config, pc: SessionPc) {
    match pc
    case Joining(out) => OptionForWebSocket(cfg, out)
    case Queueing(h) => HoldOk(cfg, h)
    case _ => true
  }

  predicate ParcelsOk(cfg: Config, c: Conn) {
    && TaskOk(cfg, c.task)
    && OptionForWebSocket(cfg, SlotParcel(c.slot))
    && SessionParcelOk(cfg, c.pc)
    && ActorParcelsOk(cfg, c.actor)
    && AllQueued(cfg, c.bulk.queue)
    && WritingOk(cfg, c.writer.pc)
    && AllFinished(cfg, c.done)
  }

  lemma {:induction false} FinishedConcat(cfg: Config, a: seq<Parcel>, b: seq<Parcel>)
    requires AllFinished(cfg, a) && AllFinished(cfg, b)
    ensures AllFinished(cfg, a + b)
  {
  }

  lemma {:induction false} FinishedOption(cfg: Config, o: Option<Parcel>)
    requires OptionForWebSocket(cfg, o)
    ensures AllFinished(cfg, OptionSeq(DropOption(o, ConnectionEnded)))
  {
  }

  lemma {:induction false} TaskMovesKeepParcels(cfg: Config, s: State, st: TaskStep)
    requires ParcelsOk(cfg, s.c) && NextTask(cfg, s, st).Some?
    ensures ParcelsOk(cfg, NextTask(cfg, s, st).value.c)
  {
    TaskKeepsParcels(cfg, s.used, s.c.task.value, TaskView(s.c), st);
    var r := TaskNext(cfg, s.used, s.c.task.value, TaskView(s.c), st).value;
    FinishedConcat(cfg, s.c.done, OptionSeq(r.lost));
  }

  lemma {:induction false} ActorMovesKeepParcels(cfg: Config, s: State, st: ActorStep)
    requires ParcelsOk(cfg, s.c) && NextActor(cfg, s, st).Some?
    ensures ParcelsOk(cfg, NextActor(cfg, s, st).value.c)
  {
    ActorKeepsParcels(cfg, s.used, s.c.actor, s.c.bulk, ViewOfActor(s.c), st);
    FinishedConcat(cfg, s.c.done, ActorNext(cfg, s.used, s.c.actor, s.c.bulk, ViewOfActor(s.c), st).value.lost);
  }

  lemma {:induction false} WriterMovesKeepParcels(cfg: Config, s: State, st: WriterStep)
    requires ParcelsOk(cfg, s.c) && NextWriter(s, st).Some?
    ensures ParcelsOk(cfg, NextWriter(s, st).value.c)
  {
    WriterKeepsParcels(cfg, s.c.writer, s.c.bulk, ViewOfWriter(s.c), s.used, st);
    FinishedConcat(cfg, s.c.done, WriterNext(s.c.writer, s.c.bulk, ViewOfWriter(s.c), s.used, st).value.lost);
  }

  lemma {:induction false} LeaveKeepsParcels(cfg: Config, s: State, exit: Exit, farewell: Option<Control>)
    requires ParcelsOk(cfg, s.c)
    ensures ParcelsOk(cfg, Leave(s, exit, farewell).c)
  {
    FinishedOption(cfg, SlotParcel(s.c.slot));
    FinishedConcat(cfg, s.c.done, OptionSeq(DropOption(SlotParcel(s.c.slot), ConnectionEnded)));
  }

  lemma {:induction false} RequestKeepsParcels(cfg: Config, s: State, uid: bytes, uidCap: nat)
    requires ParcelsOk(cfg, s.c) && s.c.pc.Select? && |uid| <= MAX_UID_SIZE && |uid| <= uidCap
    ensures ParcelsOk(cfg, ReceiveRequest(cfg, s, uid, uidCap).c)
  {
    var p := NewBusy(s.c.next, uid, uidCap);
    assert FreshAnswer(cfg, p, Busy) && ForWebSocket(cfg, p) && FinishedOk(cfg, Drop(p, MemoryRefused));
    assert AskedOk(cfg, NewScrape(s.c.next, uid));
  }

  lemma {:induction false} SelectKeepsParcels(cfg: Config, s: State, st: SessionStep)
    requires ParcelsOk(cfg, s.c) && s.c.pc.Select? && SelectNext(cfg, s, st).Some?
    ensures ParcelsOk(cfg, SelectNext(cfg, s, st).value.c)
  {
    match st {
      case ObserveShutdown => LeaveKeepsParcels(cfg, s, Shutdown, Some(Close(ClientShutdown)));
      case ObserveWriterEnd => LeaveKeepsParcels(cfg, State(s.c.(writerDone := true), s.used), WriterStopped, None);
      case HeartbeatTick(expired) =>
        if expired { LeaveKeepsParcels(cfg, s, HeartbeatExpired, Some(Close(HeartbeatTimeout))); }
      case ReadEnd => LeaveKeepsParcels(cfg, s, ReadEnded, None);
      case ReadClose => LeaveKeepsParcels(cfg, s, ServerClosed, Some(Close(ServerEcho)));
      case ReadRequest(uid, uidCap) => RequestKeepsParcels(cfg, s, uid, uidCap);
      case _ =>
    }
  }

  lemma {:induction false} JoinKeepsParcels(cfg: Config, s: State, out: Option<Parcel>, panicked: bool)
    requires ParcelsOk(cfg, s.c) && s.c.pc == Joining(out) && JoinNext(s, out, panicked).Some?
    ensures ParcelsOk(cfg, JoinNext(s, out, panicked).value.c)
  {
    if panicked {
      var lost := OptionSeq(DropOption(out, ConnectionEnded));
      FinishedOption(cfg, out);
      FinishedConcat(cfg, s.c.done, lost);
      LeaveKeepsParcels(cfg, State(s.c.(task := None, done := s.c.done + lost), s.used - Maybe(Reserved, out)),
          TaskFailed, None);
    }
  }

  lemma {:induction false} QueueingKeepsParcels(cfg: Config, s: State, r: QueueResult)
    requires ParcelsOk(cfg, s.c) && AllQueued(cfg, r.bulk.queue)
    requires r.out.Holding? ==> HoldOk(cfg, r.out.h)
    requires r.out.GaveUp? || r.out.Failed? ==> FinishedOk(cfg, r.out.p)
    ensures ParcelsOk(cfg, AfterQueueing(s, r).c)
  {
    if r.out.Failed? {
      LeaveKeepsParcels(cfg, State(s.c.(bulk := r.bulk, pc := Select, done := s.c.done + [r.out.p]), r.used),
          QueueFailed, None);
    }
  }

  lemma {:induction false} SessionMovesKeepParcels(cfg: Config, s: State, st: SessionStep)
    requires ParcelsOk(cfg, s.c) && NextSession(cfg, s, st).Some?
    ensures ParcelsOk(cfg, NextSession(cfg, s, st).value.c)
  {
    match s.c.pc {
      case Select => SelectKeepsParcels(cfg, s, st);
      case Joining(out) => JoinKeepsParcels(cfg, s, out, st.panicked);
      case Queueing(h) =>
        QueueKeepsParcels(cfg, s.used, s.c.bulk, WriterAlive(s.c), Session, h, st.q);
        QueueingKeepsParcels(cfg, s, QueueNext(cfg, s.used, s.c.bulk, WriterAlive(s.c), Session, h, st.q).value);
      case _ =>
    }
  }
}
