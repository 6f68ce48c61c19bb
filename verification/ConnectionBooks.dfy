/**
 The books of a connection: no step loses or copies a request, the histories agree with the
 parcels, and the shared budget moves by exactly what the connection holds.
 */
module ConnectionBooks {
  import opened Options
  import opened Bytes
  import opened Protocol
  import opened Parcels
  import opened BulkQueue
  import opened ScrapeTask
  import opened BusyAnswers
  import opened WriterLoop
  import opened Connection
  import opened ConnectionInvariant

  /** Histories carried by the parcels and the logs of the connection change together. */
  predicate KeepsBooks(m: Measure, c: Conn, c': Conn) {
    AllTotal(m, c') + LogTotal(m, c) == AllTotal(m, c) + LogTotal(m, c')
  }

  /** What others have taken from the budget is left alone, and its limit is respected. */
  predicate KeepsLedger(cfg: Config, s: State, s': State) {
    && s'.used - LiveTotal(Reserved, s'.c) == s.used - LiveTotal(Reserved, s.c)
    && (s.used <= cfg.limit ==> s'.used <= cfg.limit)
  }

  lemma {:induction false} PlacesArePlain(cfg: Config, c: Conn)
    requires ParcelsOk(cfg, c)
    ensures ActorPlain(c.actor) && ActorSpendable(c.actor) && HeadUnsent(c.bulk)
    ensures c.pc.Queueing? ==> c.pc.h.p.frames == 0 && Spendable(c.pc.h)
  {
  }

  // -------------------------------------------------------------- conservation

  lemma {:induction false} TaskMovesKeepBooks(m: Measure, cfg: Config, s: State, st: TaskStep)
    requires ParcelsOk(cfg, s.c) && NextTask(cfg, s, st).Some? && CountsRequests(m)
    requires s.c.slot.None? || TaskNext(cfg, s.used, s.c.task.value, TaskView(s.c), st).value.sent.None?
    ensures KeepsBooks(m, s.c, NextTask(cfg, s, st).value.c)
  {
    hide Weight;
    hide TaskNext;
    hide TaskParcel;
    hide SlotParcel;
    hide ParcelsOk;
    TaskIsOk(cfg, s.c);
    TaskConserves(m, cfg, s.used, s.c.task.value, TaskView(s.c), st);
    var r := TaskNext(cfg, s.used, s.c.task.value, TaskView(s.c), st).value;
    TotalPushMaybe(m, s.c.done, r.lost);
    CountPush(m, s.c.posted, r.posted);
    TaskReplaced(m, s.c, r);
    hide LiveTotal;
    hide Maybe;
    hide Total;
    hide CountKeys;
  }

  lemma {:induction false} TaskIsOk(cfg: Config, c: Conn)
    requires ParcelsOk(cfg, c)
    ensures TaskOk(cfg, c.task)
  {
  }

  lemma {:induction false} TaskReplaced(m: Measure, c: Conn, r: TaskResult)
    requires c.slot.None? || r.sent.None?
    ensures LiveTotal(m, WithTask(c, r)) + Maybe(m, TaskParcel(c.task)) ==
            LiveTotal(m, c) + Maybe(m, TaskParcel(r.task)) + Maybe(m, SlotParcel(r.sent))
  {
    hide Weight;
    hide Total;
    hide TaskParcel;
  }

  lemma {:induction false} ActorMovesKeepBooks(m: Measure, cfg: Config, s: State, st: ActorStep)
    requires ParcelsOk(cfg, s.c) && NextActor(cfg, s, st).Some? && CountsRequests(m)
    ensures KeepsBooks(m, s.c, NextActor(cfg, s, st).value.c)
  {
    PlacesArePlain(cfg, s.c);
    ActorConserves(m, cfg, s.used, s.c.actor, s.c.bulk, ViewOfActor(s.c), st);
    var r := ActorNext(cfg, s.used, s.c.actor, s.c.bulk, ViewOfActor(s.c), st).value;
    TotalConcat(m, s.c.done, r.lost);
    CountPush(m, s.c.posted, r.posted);
  }

  lemma {:induction false} WriterMovesKeepBooks(m: Measure, cfg: Config, s: State, st: WriterStep)
    requires ParcelsOk(cfg, s.c) && NextWriter(s, st).Some? && CountsRequests(m)
    ensures KeepsBooks(m, s.c, NextWriter(s, st).value.c)
  {
    PlacesArePlain(cfg, s.c);
    WriterConserves(m, s.c.writer, s.c.bulk, ViewOfWriter(s.c), s.used, st);
    TotalConcat(m, s.c.done, WriterNext(s.c.writer, s.c.bulk, ViewOfWriter(s.c), s.used, st).value.lost);
  }

  predicate SameHistory(c: Conn, c': Conn) {
    c'.next == c.next && c'.posted == c.posted && c'.writer.started == c.writer.started
  }

  lemma {:induction false} SameHistorySameLog(m: Measure, c: Conn, c': Conn)
    requires SameHistory(c, c')
    ensures LogTotal(m, c') == LogTotal(m, c)
  {
  }

  lemma {:induction false} LeaveMovesSlot(m: Measure, s: State, exit: Exit, farewell: Option<Control>)
    ensures var c' := Leave(s, exit, farewell).c;
            LiveTotal(m, c') + Maybe(m, SlotParcel(s.c.slot)) + Maybe(m, SessionParcel(s.c.pc)) == LiveTotal(m, s.c)
  {
  }

  lemma {:induction false} LeaveConserves(m: Measure, s: State, exit: Exit, farewell: Option<Control>)
    requires CountsRequests(m) && SessionParcel(s.c.pc) == None
    ensures KeepsBooks(m, s.c, Leave(s, exit, farewell).c)
  {
    LeaveMovesSlot(m, s, exit, farewell);
    TotalPushMaybe(m, s.c.done, DropOption(SlotParcel(s.c.slot), ConnectionEnded));
    SameHistorySameLog(m, s.c, Leave(s, exit, farewell).c);
  }

  lemma {:induction false} AnswerBusyConserves(m: Measure, cfg: Config, c: Conn, p: Parcel)
    requires c.pc.Select?
    ensures LiveTotal(m, AnswerBusy(cfg, c, p)) == LiveTotal(m, c) + Weight(m, p)
    ensures SameHistory(c, AnswerBusy(cfg, c, p)) && AnswerBusy(cfg, c, p).done == c.done
  {
    TotalPush(m, c.actor.queue, p);
  }

  lemma {:induction false} NewParcelsAreNew(m: Measure, id: nat, uid: bytes, uidCap: nat)
    requires CountsRequests(m)
    ensures var w := if m == Requests(id) then 1 else 0;
            Weight(m, NewScrape(id, uid)) == w && Weight(m, NewBusy(id, uid, uidCap)) == w
            && Weight(m, Drop(NewBusy(id, uid, uidCap), MemoryRefused)) == w
  {
  }

  /** The task has nothing left to deliver. */
  predicate TaskIdle(c: Conn) {
    c.task.None? || c.task.value.Sent?
  }

  function Received(c: Conn): Conn {
    c.(next := c.next + 1)
  }

  lemma {:induction false} ReceivedCounts(m: Measure, c: Conn)
    requires CountsRequests(m)
    ensures LogTotal(m, Received(c)) == LogTotal(m, c) + if m == Requests(c.next) then 1 else 0
    ensures LiveTotal(m, Received(c)) == LiveTotal(m, c)
  {
  }

  lemma {:induction false} ScrapeRequestKeepsBooks(m: Measure, c: Conn, uid: bytes)
    requires c.task.None? && CountsRequests(m)
    ensures KeepsBooks(m, c, Received(c).(active := true, task := Some(Calling(NewScrape(c.next, uid)))))
  {
    NewParcelsAreNew(m, c.next, uid, 0);
    ReceivedCounts(m, c);
    SameHistorySameLog(m, Received(c), Received(c).(active := true, task := Some(Calling(NewScrape(c.next, uid)))));
  }

  lemma {:induction false} BusyRequestKeepsBooks(m: Measure, cfg: Config, c: Conn, uid: bytes, uidCap: nat)
    requires c.pc.Select? && CountsRequests(m)
    ensures var p := NewBusy(c.next, uid, uidCap);
            && KeepsBooks(m, c, AnswerBusy(cfg, Received(c), p))
            && KeepsBooks(m, c, Received(c).(done := c.done + [Drop(p, MemoryRefused)]))
  {
    var p := NewBusy(c.next, uid, uidCap);
    var c' := Received(c);
    NewParcelsAreNew(m, c.next, uid, uidCap);
    ReceivedCounts(m, c);
    AnswerBusyConserves(m, cfg, c', p);
    SameHistorySameLog(m, c', AnswerBusy(cfg, c', p));
    TotalPush(m, c.done, Drop(p, MemoryRefused));
    SameHistorySameLog(m, c', c'.(done := c.done + [Drop(p, MemoryRefused)]));
  }

  lemma {:induction false} RequestKeepsBooks(m: Measure, cfg: Config, s: State, uid: bytes, uidCap: nat)
    requires s.c.pc.Select? && (!s.c.active ==> s.c.task.None?) && CountsRequests(m)
    ensures KeepsBooks(m, s.c, ReceiveRequest(cfg, s, uid, uidCap).c)
  {
    hide KeepsBooks;
    hide AnswerBusy;
    if s.c.active {
      BusyRequestKeepsBooks(m, cfg, s.c, uid, uidCap);
    } else {
      ScrapeRequestKeepsBooks(m, s.c, uid);
    }
  }

  /** A step that moves no parcel and starts nothing keeps the books. */
  lemma {:induction false} IdleKeepsBooks(m: Measure, c: Conn, c': Conn)
    requires SameHistory(c, c') && c'.done == c.done && LiveTotal(m, c') == LiveTotal(m, c)
    ensures KeepsBooks(m, c, c')
  {
    SameHistorySameLog(m, c, c');
  }

  /** A step that moves one parcel to `done` and leaves the connection. */
  lemma {:induction false} LoseAndLeave(m: Measure, c: Conn, c': Conn, lost: Option<Parcel>, used: int, exit: Exit)
    requires CountsRequests(m) && SessionParcel(c'.pc) == None
    requires SameHistory(c, c') && c'.done == c.done + OptionSeq(lost)
    requires LiveTotal(m, c') + Maybe(m, lost) == LiveTotal(m, c)
    ensures KeepsBooks(m, c, Leave(State(c', used), exit, None).c)
  {
    hide LiveTotal;
    hide Leave;
    TotalPushMaybe(m, c.done, lost);
    SameHistorySameLog(m, c, c');
    LeaveConserves(m, State(c', used), exit, None);
  }

  lemma {:induction false} SayKeepsTotals(m: Measure, c: Conn, x: Control)
    ensures var c' := Say(c, x); SameHistory(c, c') && c'.done == c.done && LiveTotal(m, c') == LiveTotal(m, c)
  {
    hide Total;
    hide Weight;
  }

  lemma {:induction false} SayKeepsBooks(m: Measure, c: Conn, x: Control, y: Control)
    ensures KeepsBooks(m, c, Say(c, x)) && KeepsBooks(m, c, Say(Say(c, x), y))
  {
    hide LiveTotal;
    hide Say;
    SayKeepsTotals(m, c, x);
    SayKeepsTotals(m, Say(c, x), y);
    IdleKeepsBooks(m, c, Say(c, x));
    IdleKeepsBooks(m, c, Say(Say(c, x), y));
  }

  lemma {:induction false} TakeCompletionKeepsBooks(m: Measure, c: Conn)
    requires c.pc.Select? && c.slot.Some?
    ensures KeepsBooks(m, c, c.(active := false, slot := None, pc := Joining(c.slot.value)))
  {
    hide Total;
    hide Weight;
    hide KeepsBooks;
    IdleKeepsBooks(m, c, c.(active := false, slot := None, pc := Joining(c.slot.value)));
  }

  lemma {:induction false} WriterEndKeepsBooks(m: Measure, s: State)
    requires s.c.pc.Select? && CountsRequests(m)
    ensures KeepsBooks(m, s.c, Leave(State(s.c.(writerDone := true), s.used), WriterStopped, None).c)
  {
    hide Total;
    hide Weight;
    hide KeepsBooks;
    hide Leave;
    assert s.c.done == s.c.done + OptionSeq(None);
    LoseAndLeave(m, s.c, s.c.(writerDone := true), None, s.used, WriterStopped);
  }

  lemma {:induction false} SelectKeepsBooks(m: Measure, cfg: Config, s: State, st: SessionStep)
    requires s.c.pc.Select? && (!s.c.active ==> s.c.task.None?) && SelectNext(cfg, s, st).Some? && CountsRequests(m)
    ensures KeepsBooks(m, s.c, SelectNext(cfg, s, st).value.c)
  {
    hide KeepsBooks;
    hide Leave;
    hide ReceiveRequest;
    hide Say;
    hide LiveTotal;
    match st {
      case ObserveShutdown => LeaveConserves(m, s, Shutdown, Some(Close(ClientShutdown)));
      case ObserveWriterEnd => WriterEndKeepsBooks(m, s);
      case HeartbeatTick(expired) =>
        if expired {
          LeaveConserves(m, s, HeartbeatExpired, Some(Close(HeartbeatTimeout)));
        } else {
          SayKeepsBooks(m, s.c, PingText, PingFrame);
        }
      case ReadEnd => LeaveConserves(m, s, ReadEnded, None);
      case ReadClose => LeaveConserves(m, s, ServerClosed, Some(Close(ServerEcho)));
      case ReadRequest(uid, uidCap) => RequestKeepsBooks(m, cfg, s, uid, uidCap);
      case ReadPingText => SayKeepsBooks(m, s.c, PongText, PongText);
      case ReadPingFrame => SayKeepsBooks(m, s.c, PongFrame, PongFrame);
      case ReadReady(uid) =>
        IdleKeepsBooks(m, s.c, s.c);
        SayKeepsBooks(m, s.c, ReadyAnswer(uid), ReadyAnswer(uid));
      case ReadIgnored => IdleKeepsBooks(m, s.c, s.c);
      case TakeCompletion => TakeCompletionKeepsBooks(m, s.c);
      case _ =>
    }
  }

  lemma {:induction false} JoinKeepsBooks(m: Measure, s: State, out: Option<Parcel>, panicked: bool)
    requires s.c.pc == Joining(out) && TaskIdle(s.c)
    requires JoinNext(s, out, panicked).Some? && CountsRequests(m)
    ensures KeepsBooks(m, s.c, JoinNext(s, out, panicked).value.c)
  {
    hide KeepsBooks;
    hide Leave;
    hide Total;
    if panicked {
      FinishKeepsMaybe(m, out);
      hide Weight;
      var lost := DropOption(out, ConnectionEnded);
      var c := s.c.(task := None, done := s.c.done + OptionSeq(lost));
      LeaveIgnoresPc(State(c, s.used - Maybe(Reserved, out)), TaskFailed);
      LoseAndLeave(m, s.c, c.(pc := Select), lost, s.used - Maybe(Reserved, out), TaskFailed);
    } else {
      match out {
        case None => IdleKeepsBooks(m, s.c, s.c.(task := None, pc := Select));
        case Some(p) => IdleKeepsBooks(m, s.c, s.c.(task := None, pc := Queueing(StartQueueing(p))));
      }
    }
  }

  lemma {:induction false} FinishKeepsMaybe(m: Measure, o: Option<Parcel>)
    requires CountsRequests(m)
    ensures Maybe(m, DropOption(o, ConnectionEnded)) == Maybe(m, o)
  {
  }

  lemma {:induction false} LeaveIgnoresPc(s: State, exit: Exit)
    ensures Leave(s, exit, None) == Leave(State(s.c.(pc := Select), s.used), exit, None)
  {
  }

  /** The response stays with the session, or is now in the queue. */
  lemma {:induction false} QueueMoved(m: Measure, c: Conn, bulk: Bulk, out: Outcome)
    requires c.pc.Queueing? && (out.Holding? || out.Pushed?)
    requires OutcomeTotal(m, out) + Total(m, bulk.queue) == Weight(m, c.pc.h.p) + Total(m, c.bulk.queue)
    ensures KeepsBooks(m, c, c.(bulk := bulk, pc := if out.Holding? then Queueing(out.h) else Select))
  {
    hide Weight;
    hide Total;
    hide KeepsBooks;
    IdleKeepsBooks(m, c, c.(bulk := bulk, pc := if out.Holding? then Queueing(out.h) else Select));
  }

  lemma {:induction false} AfterQueueingKeepsBooks(m: Measure, s: State, r: QueueResult)
    requires s.c.pc.Queueing? && CountsRequests(m)
    requires OutcomeTotal(m, r.out) + Total(m, r.bulk.queue) == Weight(m, s.c.pc.h.p) + Total(m, s.c.bulk.queue)
    ensures KeepsBooks(m, s.c, AfterQueueing(s, r).c)
  {
    hide KeepsBooks;
    hide Leave;
    hide Weight;
    hide Total;
    hide LiveTotal;
    hide SameHistory;
    if r.out.Holding? || r.out.Pushed? {
      QueueMoved(m, s.c, r.bulk, r.out);
    } else {
      var c := s.c.(bulk := r.bulk, pc := Select, done := s.c.done + [r.out.p]);
      QueueSettled(m, s.c, r.bulk, r.out.p);
      if r.out.GaveUp? {
        GaveUpKeepsBooks(m, s.c, c, r.out.p);
      } else {
        LoseAndLeave(m, s.c, c, Some(r.out.p), r.used, QueueFailed);
      }
    }
  }

  lemma {:induction false} QueueSettled(m: Measure, c: Conn, bulk: Bulk, p: Parcel)
    requires c.pc.Queueing? && Weight(m, p) + Total(m, bulk.queue) == Weight(m, c.pc.h.p) + Total(m, c.bulk.queue)
    ensures var c' := c.(bulk := bulk, pc := Select, done := c.done + [p]);
            LiveTotal(m, c') + Weight(m, p) == LiveTotal(m, c) && SameHistory(c, c')
  {
    hide Weight;
    hide Total;
  }

  lemma {:induction false} GaveUpKeepsBooks(m: Measure, c: Conn, c': Conn, lost: Parcel)
    requires SameHistory(c, c') && c'.done == c.done + [lost] && LiveTotal(m, c') + Weight(m, lost) == LiveTotal(m, c)
    ensures KeepsBooks(m, c, c')
  {
    hide LiveTotal;
    TotalPush(m, c.done, lost);
    SameHistorySameLog(m, c, c');
  }

  lemma {:induction false} QueueingKeepsBooks(m: Measure, cfg: Config, s: State, q: QueueStep)
    requires ParcelsOk(cfg, s.c) && s.c.pc.Queueing? && CountsRequests(m)
    requires QueueNext(cfg, s.used, s.c.bulk, WriterAlive(s.c), Session, s.c.pc.h, q).Some?
    ensures KeepsBooks(m, s.c,
                AfterQueueing(s, QueueNext(cfg, s.used, s.c.bulk, WriterAlive(s.c), Session, s.c.pc.h, q).value).c)
  {
    PlacesArePlain(cfg, s.c);
    QueueConserves(m, cfg, s.used, s.c.bulk, WriterAlive(s.c), Session, s.c.pc.h, q);
    AfterQueueingKeepsBooks(m, s, QueueNext(cfg, s.used, s.c.bulk, WriterAlive(s.c), Session, s.c.pc.h, q).value);
  }

  lemma {:induction false} FarewellKeepsTotals(m: Measure, c: Conn, farewell: Option<Control>)
    requires TaskIdle(c) && c.pc.AbortingTask?
    ensures var c' := SayFarewell(c.(task := None, active := false), farewell);
            SameHistory(c, c') && c'.done == c.done && LiveTotal(m, c') == LiveTotal(m, c)
  {
    hide LiveTotal;
    var c0 := c.(task := None, active := false);
    JoinedTask(m, c, c0);
    if farewell.Some? {
      SayKeepsTotals(m, c0, farewell.value);
    }
    hide Say;
    var c1 := if farewell.Some? then Say(c0, farewell.value) else c0;
    SendersDropped(m, c0);
    SendersDropped(m, c1);
  }

  lemma {:induction false} JoinedTask(m: Measure, c: Conn, c': Conn)
    requires TaskIdle(c) && c' == c.(task := None, active := false)
    ensures LiveTotal(m, c') == LiveTotal(m, c)
  {
    hide Weight;
    hide Total;
  }

  lemma {:induction false} SendersDropped(m: Measure, c: Conn)
    requires SessionParcel(c.pc) == None
    ensures LiveTotal(m, c.(senders := false, pc := Flushing)) == LiveTotal(m, c)
    ensures LiveTotal(m, c.(senders := false, pc := StoppingWriter)) == LiveTotal(m, c)
    ensures LiveTotal(m, c.(senders := false, pc := StoppingActor)) == LiveTotal(m, c)
  {
    hide Weight;
    hide Total;
  }

  lemma {:induction false} TeardownKeepsTotals(m: Measure, cfg: Config, s: State, st: SessionStep)
    requires RunOver(s.c.pc) && NextSession(cfg, s, st).Some?
    ensures var s' := NextSession(cfg, s, st).value;
            && SameHistory(s.c, s'.c) && s'.c.done == s.c.done && s'.used == s.used
            && LiveTotal(m, s'.c) == LiveTotal(m, s.c)
  {
    hide SayFarewell;
    hide SelectNext;
    hide JoinNext;
    hide QueueNext;
    hide AfterQueueing;
    hide LiveTotal;
    if s.c.pc.AbortingTask? {
      FarewellKeepsTotals(m, s.c, s.c.pc.farewell);
    } else {
      TeardownPhase(m, s.c, StoppingWriter);
      TeardownPhase(m, s.c, StoppingActor);
      TeardownPhase(m, s.c, SessionPc.Returned);
    }
  }

  lemma {:induction false} TeardownPhase(m: Measure, c: Conn, pc: SessionPc)
    requires SessionParcel(c.pc) == None && SessionParcel(pc) == None
    ensures LiveTotal(m, c.(pc := pc)) == LiveTotal(m, c)
  {
    hide Weight;
    hide Total;
  }

  lemma {:induction false} SessionMovesKeepBooks(m: Measure, cfg: Config, s: State, st: SessionStep)
    requires ParcelsOk(cfg, s.c) && (!s.c.active && s.c.pc.Select? ==> s.c.task.None?)
    requires s.c.pc.Joining? ==> TaskIdle(s.c)
    requires NextSession(cfg, s, st).Some? && CountsRequests(m)
    ensures KeepsBooks(m, s.c, NextSession(cfg, s, st).value.c)
  {
    hide KeepsBooks;
    hide LiveTotal;
    hide QueueNext;
    var c' := NextSession(cfg, s, st).value.c;
    if RunOver(s.c.pc) {
      TeardownKeepsTotals(m, cfg, s, st);
      IdleKeepsBooks(m, s.c, c');
    } else {
      match s.c.pc {
        case Select => SelectKeepsBooks(m, cfg, s, st);
        case Joining(out) => JoinKeepsBooks(m, s, out, st.panicked);
        case Queueing(h) => QueueingKeepsBooks(m, cfg, s, st.q);
        case _ =>
      }
    }
  }

  // -------------------------------------------------------------------- ledger

  lemma {:induction false} TaskMovesKeepLedger(cfg: Config, s: State, st: TaskStep)
    requires ParcelsOk(cfg, s.c) && NextTask(cfg, s, st).Some?
    requires s.c.slot.None? || TaskNext(cfg, s.used, s.c.task.value, TaskView(s.c), st).value.sent.None?
    ensures KeepsLedger(cfg, s, NextTask(cfg, s, st).value)
  {
    TaskKeepsLedger(cfg, s.used, s.c.task.value, TaskView(s.c), st);
  }

  lemma {:induction false} ActorMovesKeepLedger(cfg: Config, s: State, st: ActorStep)
    requires ParcelsOk(cfg, s.c) && NextActor(cfg, s, st).Some?
    ensures KeepsLedger(cfg, s, NextActor(cfg, s, st).value)
  {
    PlacesArePlain(cfg, s.c);
    ActorKeepsLedger(cfg, s.used, s.c.actor, s.c.bulk, ViewOfActor(s.c), st);
  }

  lemma {:induction false} WriterMovesKeepLedger(cfg: Config, s: State, st: WriterStep)
    requires ParcelsOk(cfg, s.c) && NextWriter(s, st).Some?
    ensures KeepsLedger(cfg, s, NextWriter(s, st).value)
  {
    WriterKeepsLedger(cfg, s.c.writer, s.c.bulk, ViewOfWriter(s.c), s.used, st);
  }

  lemma {:induction false} BusyRequestKeepsLedger(cfg: Config, s: State, uid: bytes, uidCap: nat)
    requires s.c.pc.Select? && s.c.active
    ensures KeepsLedger(cfg, s, ReceiveRequest(cfg, s, uid, uidCap))
  {
    hide AnswerBusy;
    AnswerBusyConserves(Reserved, cfg, s.c.(next := s.c.next + 1), NewBusy(s.c.next, uid, uidCap));
  }

  lemma {:induction false} ScrapeRequestKeepsLedger(cfg: Config, s: State, uid: bytes, uidCap: nat)
    requires s.c.pc.Select? && !s.c.active && s.c.task.None?
    ensures KeepsLedger(cfg, s, ReceiveRequest(cfg, s, uid, uidCap))
  {
    hide Total;
  }

  lemma {:induction false} LeaveKeepsLedger(cfg: Config, s: State, exit: Exit, farewell: Option<Control>)
    requires SessionParcel(s.c.pc) == None
    ensures KeepsLedger(cfg, s, Leave(s, exit, farewell))
    ensures KeepsLedger(cfg, s, Leave(State(s.c.(writerDone := true), s.used), exit, farewell))
  {
    hide Total;
    hide Weight;
    LeaveMovesSlot(Reserved, s, exit, farewell);
    LeaveMovesSlot(Reserved, State(s.c.(writerDone := true), s.used), exit, farewell);
  }

  lemma {:induction false} SayKeepsLedger(cfg: Config, s: State, x: Control, y: Control)
    ensures KeepsLedger(cfg, s, State(Say(s.c, x), s.used)) && KeepsLedger(cfg, s, State(Say(Say(s.c, x), y), s.used))
  {
    hide LiveTotal;
    hide Say;
    SayKeepsTotals(Reserved, s.c, x);
    SayKeepsTotals(Reserved, Say(s.c, x), y);
  }

  lemma {:induction false} TakeCompletionKeepsLedger(cfg: Config, s: State)
    requires s.c.pc.Select? && s.c.slot.Some?
    ensures KeepsLedger(cfg, s, State(s.c.(active := false, slot := None, pc := Joining(s.c.slot.value)), s.used))
  {
    hide Total;
    hide Weight;
  }

  lemma {:induction false} SelectKeepsLedger(cfg: Config, s: State, st: SessionStep)
    requires s.c.pc.Select? && (!s.c.active ==> s.c.task.None?) && SelectNext(cfg, s, st).Some?
    ensures KeepsLedger(cfg, s, SelectNext(cfg, s, st).value)
  {
    hide KeepsLedger;
    hide Leave;
    hide Say;
    hide ReceiveRequest;
    IdleKeepsLedger(cfg, s);
    match st {
      case ObserveShutdown => LeaveKeepsLedger(cfg, s, Shutdown, Some(Close(ClientShutdown)));
      case ObserveWriterEnd => LeaveKeepsLedger(cfg, s, WriterStopped, None);
      case HeartbeatTick(expired) =>
        LeaveKeepsLedger(cfg, s, HeartbeatExpired, Some(Close(HeartbeatTimeout)));
        SayKeepsLedger(cfg, s, PingText, PingFrame);
      case ReadEnd => LeaveKeepsLedger(cfg, s, ReadEnded, None);
      case ReadClose => LeaveKeepsLedger(cfg, s, ServerClosed, Some(Close(ServerEcho)));
      case ReadPingText => SayKeepsLedger(cfg, s, PongText, PongText);
      case ReadPingFrame => SayKeepsLedger(cfg, s, PongFrame, PongFrame);
      case ReadReady(uid) => SayKeepsLedger(cfg, s, ReadyAnswer(uid), ReadyAnswer(uid));
      case TakeCompletion => TakeCompletionKeepsLedger(cfg, s);
      case ReadRequest(uid, uidCap) =>
        if s.c.active {
          BusyRequestKeepsLedger(cfg, s, uid, uidCap);
        } else {
          ScrapeRequestKeepsLedger(cfg, s, uid, uidCap);
        }
      case _ =>
    }
  }

  lemma {:induction false} IdleKeepsLedger(cfg: Config, s: State)
    ensures KeepsLedger(cfg, s, s)
  {
  }

  lemma {:induction false} JoinKeepsLedger(cfg: Config, s: State, out: Option<Parcel>, panicked: bool)
    requires s.c.pc == Joining(out) && TaskIdle(s.c) && JoinNext(s, out, panicked).Some?
    ensures KeepsLedger(cfg, s, JoinNext(s, out, panicked).value)
  {
    hide Total;
    hide Weight;
  }

  lemma {:induction false} AfterQueueingKeepsLedger(cfg: Config, s: State, r: QueueResult)
    requires s.c.pc.Queueing?
    requires r.used - s.used == OutcomeTotal(Reserved, r.out) + Total(Reserved, r.bulk.queue)
                                - Weight(Reserved, s.c.pc.h.p) - Total(Reserved, s.c.bulk.queue)
    requires s.used <= cfg.limit ==> r.used <= cfg.limit
    requires r.out.GaveUp? || r.out.Failed? ==> Weight(Reserved, r.out.p) == 0
    ensures KeepsLedger(cfg, s, AfterQueueing(s, r))
  {
    hide Total;
    hide Weight;
  }

  lemma {:induction false} QueueingKeepsLedger(cfg: Config, s: State, q: QueueStep)
    requires ParcelsOk(cfg, s.c) && s.c.pc.Queueing?
    requires QueueNext(cfg, s.used, s.c.bulk, WriterAlive(s.c), Session, s.c.pc.h, q).Some?
    ensures KeepsLedger(cfg, s,
                AfterQueueing(s, QueueNext(cfg, s.used, s.c.bulk, WriterAlive(s.c), Session, s.c.pc.h, q).value))
  {
    PlacesArePlain(cfg, s.c);
    QueueKeepsLedger(cfg, s.used, s.c.bulk, WriterAlive(s.c), Session, s.c.pc.h, q);
    QueueKeepsParcels(cfg, s.used, s.c.bulk, WriterAlive(s.c), Session, s.c.pc.h, q);
    AfterQueueingKeepsLedger(cfg, s, QueueNext(cfg, s.used, s.c.bulk, WriterAlive(s.c), Session, s.c.pc.h, q).value);
  }

  lemma {:induction false} SessionMovesKeepLedger(cfg: Config, s: State, st: SessionStep)
    requires ParcelsOk(cfg, s.c) && (!s.c.active && s.c.pc.Select? ==> s.c.task.None?)
    requires s.c.pc.Joining? ==> TaskIdle(s.c)
    requires NextSession(cfg, s, st).Some?
    ensures KeepsLedger(cfg, s, NextSession(cfg, s, st).value)
  {
    hide LiveTotal;
    hide QueueNext;
    if RunOver(s.c.pc) {
      TeardownKeepsTotals(Reserved, cfg, s, st);
    } else {
      match s.c.pc {
        case Select => SelectKeepsLedger(cfg, s, st);
        case Joining(out) => JoinKeepsLedger(cfg, s, out, st.panicked);
        case Queueing(h) => QueueingKeepsLedger(cfg, s, st.q);
        case _ =>
      }
    }
  }
}
