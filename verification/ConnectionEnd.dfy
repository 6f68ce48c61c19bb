/**
 How a connection ends, over whole runs: the reason the close frame gives, the reasons for which responses are
 dropped, and the teardown.
 */
module ConnectionEnd {
  import opened Options
  import opened Bytes
  import opened Protocol
  import opened Parcels
  import opened BulkQueue
  import opened ScrapeTask
  import opened BusyAnswers
  import opened WriterLoop
  import opened Connection
  import opened ConnectionControl
  import opened ConnectionSelect
  import opened WriterTrace
  import opened ConnectionRuns
  import opened ConnectionSafety
  import opened ConnectionFrames
  import opened ConnectionProgress

  /**
   The close frame that belongs to an exit: the client says why it leaves, and answers the server's close; no other
   exit has one.
   */
  function FarewellFor(exit: Exit): Option<Control> {
    match exit
    case Shutdown => Some(Close(ClientShutdown))
    case HeartbeatExpired => Some(Close(HeartbeatTimeout))
    case ServerClosed => Some(Close(ServerEcho))
    case WriterStopped => None
    case ReadEnded => None
    case QueueFailed => None
    case TaskFailed => None
  }

  /** Only the farewell of the exit is ever queued as a close frame. */
  predicate FarewellOk(c: Conn) {
    && (c.pc.AbortingTask? ==> c.exit.Some? && c.pc.farewell == FarewellFor(c.exit.value))
    && (forall i :: 0 <= i < |c.writer.queued| && c.writer.queued[i].Close? ==>
          c.exit.Some? && FarewellFor(c.exit.value) == Some(c.writer.queued[i]))
  }

  /**
   A response is dropped because the connection ends only when the session or the writer has ended, and because of
   the writer only when that is gone.
   */
  predicate ReasonOk(c: Conn, p: Parcel) {
    && (p.fate == Dropped(ConnectionEnded) ==> RunOver(c.pc) || !WriterAlive(c))
    && (p.fate == Dropped(WriterFailed) ==> !WriterAlive(c))
  }

  predicate ReasonsOk(c: Conn, q: seq<Parcel>) {
    forall i :: 0 <= i < |q| ==> ReasonOk(c, q[i])
  }

  predicate EndOk(c: Conn) {
    FarewellOk(c) && ReasonsOk(c, c.done)
  }

  /** The end only comes closer. */
  predicate Onward(c: Conn, c': Conn) {
    (RunOver(c.pc) ==> RunOver(c'.pc)) && (!WriterAlive(c) ==> !WriterAlive(c'))
  }

  lemma {:induction false} ReasonsStay(c: Conn, c': Conn, lost: seq<Parcel>)
    requires ReasonsOk(c, c.done) && Onward(c, c') && ReasonsOk(c', lost) && c'.done == c.done + lost
    ensures ReasonsOk(c', c'.done)
  {
  }

  // ------------------------------------------------------------------ the steps

  lemma {:induction false} TaskMovesKeepEnd(cfg: Config, s: State, st: TaskStep)
    requires EndOk(s.c) && NextTask(cfg, s, st).Some?
    ensures EndOk(NextTask(cfg, s, st).value.c)
  {
    var r := TaskNext(cfg, s.used, s.c.task.value, TaskView(s.c), st).value;
    var c' := NextTask(cfg, s, st).value.c;
    assert ReasonsOk(c', OptionSeq(r.lost));
    hide TaskNext;
    ReasonsStay(s.c, c', OptionSeq(r.lost));
  }

  lemma {:induction false} StopActorReasons(c: Conn, a: BusyActor, b: Bulk, lost: seq<Parcel>, used: int)
    requires ReasonsOk(c, lost) && (RunOver(c.pc) || !WriterAlive(c) || (a.queue == [] && a.posts == []))
    ensures ReasonsOk(c, StopActor(a, b, lost, used).lost)
  {
  }

  lemma {:induction false} QueueReasons(c: Conn, cfg: Config, used: int, b: Bulk, who: Who, h: Hold, st: QueueStep)
    requires QueueNext(cfg, used, b, WriterAlive(c), who, h, st).Some?
    ensures var out := QueueNext(cfg, used, b, WriterAlive(c), who, h, st).value.out;
            out.GaveUp? || out.Failed? ==> ReasonOk(c, out.p)
  {
  }

  lemma {:induction false} ActorReasons(c: Conn, cfg: Config, used: int, st: ActorStep)
    requires ActorNext(cfg, used, c.actor, c.bulk, ViewOfActor(c), st).Some?
    requires ActorBounded(c.actor) && (c.senders && ActorAlive(c) ==> c.actor.inputOpen)
    requires (c.pc.StoppingActor? ==> RunOver(c.pc))
    ensures ReasonsOk(c, ActorNext(cfg, used, c.actor, c.bulk, ViewOfActor(c), st).value.lost)
  {
    hide QueueNext;
    hide StopActor;
    match st {
      case AnswerStep(q) =>
        var h := c.actor.pc.h;
        QueueReasons(c, cfg, used, c.bulk, Actor, h, q);
        var r := QueueNext(cfg, used, c.bulk, WriterAlive(c), Actor, h, q).value;
        FailedMeansClosed(cfg, used, c.bulk, WriterAlive(c), h, q);
        if r.out.Failed? {
          StopActorReasons(c, c.actor, r.bulk, [r.out.p], r.used);
        }
      case EndActor => StopActorReasons(c, c.actor, c.bulk, [], used);
      case AbortActor =>
        StopActorReasons(c, c.actor, c.bulk, [], used);
        if c.actor.pc.Answering? {
          var p := Drop(c.actor.pc.h.p, ConnectionEnded);
          StopActorReasons(c, c.actor, c.bulk, [p], used - c.actor.pc.h.p.held - c.actor.pc.h.p.extra);
        }
      case _ =>
    }
  }

  lemma {:induction false} FailedMeansClosed(cfg: Config, used: int, b: Bulk, open: bool, h: Hold, q: QueueStep)
    requires QueueNext(cfg, used, b, open, Actor, h, q).Some?
    ensures QueueNext(cfg, used, b, open, Actor, h, q).value.out.Failed? ==> !open
  {
  }

  lemma {:induction false} ActorMovesKeepEnd(cfg: Config, s: State, st: ActorStep)
    requires EndOk(s.c) && ControlOk(s.c) && NextActor(cfg, s, st).Some?
    ensures EndOk(NextActor(cfg, s, st).value.c)
  {
    ActorReasons(s.c, cfg, s.used, st);
    var r := ActorNext(cfg, s.used, s.c.actor, s.c.bulk, ViewOfActor(s.c), st).value;
    hide ActorNext;
    hide ControlOk;
    SameReasons(s.c, WithActor(s.c, r), r.lost);
    ReasonsStay(s.c, WithActor(s.c, r), r.lost);
  }

  lemma {:induction false} SameReasons(c: Conn, c': Conn, q: seq<Parcel>)
    requires ReasonsOk(c, q) && Onward(c, c')
    ensures ReasonsOk(c', q)
  {
  }

  lemma {:induction false} WriterMovesKeepEnd(s: State, st: WriterStep)
    requires EndOk(s.c) && NextWriter(s, st).Some?
    ensures EndOk(NextWriter(s, st).value.c)
  {
    var r := WriterNext(s.c.writer, s.c.bulk, ViewOfWriter(s.c), s.used, st).value;
    var c' := WithWriter(s.c, r);
    WriterReasons(s.c, s.used, st);
    hide WriterNext;
    ReasonsStay(s.c, c', r.lost);
  }

  lemma {:induction false} WriterReasons(c: Conn, used: int, st: WriterStep)
    requires WriterNext(c.writer, c.bulk, ViewOfWriter(c), used, st).Some?
    ensures var r := WriterNext(c.writer, c.bulk, ViewOfWriter(c), used, st).value;
            ReasonsOk(WithWriter(c, r), r.lost) && r.w.queued == c.writer.queued && !c.writer.pc.Stopped?
  {
  }

  /** A session step that loses `lost`, queues no close frame, and is not over or is over by the right exit. */
  lemma {:induction false} SessionKeepsEnd(c: Conn, c': Conn, lost: seq<Parcel>)
    requires EndOk(c) && ReasonsOk(c', lost) && c'.done == c.done + lost && Onward(c, c')
    requires c.writer.queued <= c'.writer.queued && c'.exit == c.exit
    requires forall i :: |c.writer.queued| <= i < |c'.writer.queued| ==> !c'.writer.queued[i].Close?
    requires !c'.pc.AbortingTask?
    ensures EndOk(c')
  {
    ReasonsStay(c, c', lost);
  }

  lemma {:induction false} LeaveKeepsEnd(s: State, exit: Exit)
    requires EndOk(s.c) && s.c.exit.None?
    ensures EndOk(Leave(s, exit, FarewellFor(exit)).c)
  {
    var lost := OptionSeq(DropOption(SlotParcel(s.c.slot), ConnectionEnded));
    ReasonsStay(s.c, Leave(s, exit, FarewellFor(exit)).c, lost);
  }

  lemma {:induction false} SayKeepsEnd(c: Conn, m: Control)
    requires EndOk(c) && !m.Close? && !c.pc.AbortingTask?
    ensures EndOk(Say(c, m))
  {
    SessionKeepsEnd(c, Say(c, m), []);
  }

  lemma {:induction false} RequestKeepsEnd(cfg: Config, s: State, uid: bytes, uidCap: nat)
    requires EndOk(s.c) && s.c.pc.Select?
    ensures EndOk(ReceiveRequest(cfg, s, uid, uidCap).c)
  {
    var c' := ReceiveRequest(cfg, s, uid, uidCap).c;
    hide EndOk;
    SessionKeepsEnd(s.c, c', c'.done[|s.c.done|..]);
  }

  lemma {:induction false} SelectKeepsEnd(cfg: Config, s: State, st: SessionStep)
    requires EndOk(s.c) && s.c.pc.Select? && s.c.exit.None? && SelectNext(cfg, s, st).Some?
    ensures EndOk(SelectNext(cfg, s, st).value.c)
  {
    var c := s.c;
    hide EndOk;
    hide Leave;
    hide Say;
    hide ReceiveRequest;
    match st {
      case ObserveShutdown => LeaveKeepsEnd(s, Shutdown);
      case ObserveWriterEnd =>
        SessionKeepsEnd(c, c.(writerDone := true), []);
        LeaveKeepsEnd(State(c.(writerDone := true), s.used), WriterStopped);
      case HeartbeatTick(expired) =>
        if expired {
          LeaveKeepsEnd(s, HeartbeatExpired);
        } else {
          SayKeepsEnd(c, PingText);
          SayKeepsPc(c, PingText);
          SayKeepsEnd(Say(c, PingText), PingFrame);
        }
      case TakeCompletion => SessionKeepsEnd(c, c.(active := false, slot := None, pc := Joining(c.slot.value)), []);
      case ReadEnd => LeaveKeepsEnd(s, ReadEnded);
      case ReadClose => LeaveKeepsEnd(s, ServerClosed);
      case ReadPingText => SayKeepsEnd(c, PongText);
      case ReadPingFrame => SayKeepsEnd(c, PongFrame);
      case ReadReady(uid) => SayKeepsEnd(c, ReadyAnswer(uid));
      case ReadRequest(uid, uidCap) => RequestKeepsEnd(cfg, s, uid, uidCap);
      case _ =>
    }
  }

  lemma {:induction false} SayKeepsPc(c: Conn, m: Control)
    ensures Say(c, m).pc == c.pc
  {
  }

  lemma {:induction false} JoinKeepsEnd(s: State, out: Option<Parcel>, panicked: bool)
    requires EndOk(s.c) && s.c.pc == Joining(out) && s.c.exit.None? && JoinNext(s, out, panicked).Some?
    ensures EndOk(JoinNext(s, out, panicked).value.c)
  {
    hide EndOk;
    if panicked {
      var lost := OptionSeq(DropOption(out, ConnectionEnded));
      var c := s.c.(task := None, done := s.c.done + lost);
      LosingThenLeaving(s.c, c, lost, s.used - Maybe(Reserved, out));
    } else {
      SessionKeepsEnd(s.c, JoinNext(s, out, panicked).value.c, []);
    }
  }

  /** Between losing a response and leaving there is no state anybody sees; together they keep the reasons true. */
  lemma {:induction false} LosingThenLeaving(c: Conn, c': Conn, lost: seq<Parcel>, used: int)
    requires EndOk(c) && c.exit.None? && c' == c.(task := None, done := c.done + lost)
    requires forall i :: 0 <= i < |lost| ==> lost[i].fate == Dropped(ConnectionEnded)
    ensures EndOk(Leave(State(c', used), TaskFailed, None).c)
  {
    var left := Leave(State(c', used), TaskFailed, None).c;
    var slot := OptionSeq(DropOption(SlotParcel(c.slot), ConnectionEnded));
    assert left.done == c.done + (lost + slot);
    ReasonsStay(c, left, lost + slot);
  }

  lemma {:induction false} QueueingKeepsEnd(cfg: Config, s: State, q: QueueStep)
    requires EndOk(s.c) && s.c.pc.Queueing? && s.c.exit.None?
    requires QueueNext(cfg, s.used, s.c.bulk, WriterAlive(s.c), Session, s.c.pc.h, q).Some?
    ensures EndOk(AfterQueueing(s, QueueNext(cfg, s.used, s.c.bulk, WriterAlive(s.c), Session, s.c.pc.h, q).value).c)
  {
    QueueReasons(s.c, cfg, s.used, s.c.bulk, Session, s.c.pc.h, q);
    var r := QueueNext(cfg, s.used, s.c.bulk, WriterAlive(s.c), Session, s.c.pc.h, q).value;
    hide QueueNext;
    hide EndOk;
    hide Leave;
    var c := s.c.(bulk := r.bulk);
    match r.out {
      case Holding(h) => SessionKeepsEnd(s.c, c.(pc := Queueing(h)), []);
      case Pushed => SessionKeepsEnd(s.c, c.(pc := Select), []);
      case GaveUp(p) => SessionKeepsEnd(s.c, c.(pc := Select, done := c.done + [p]), [p]);
      case Failed(p) =>
        SessionKeepsEnd(s.c, c.(pc := Select, done := c.done + [p]), [p]);
        LeaveKeepsEnd(State(c.(pc := Select, done := c.done + [p]), r.used), QueueFailed);
    }
  }

  lemma {:induction false} FarewellKeepsEnd(c: Conn)
    requires EndOk(c) && c.pc.AbortingTask?
    ensures EndOk(SayFarewell(c.(task := None, active := false), c.pc.farewell))
  {
    var c' := SayFarewell(c.(task := None, active := false), c.pc.farewell);
    ReasonsStay(c, c', []);
  }

  lemma {:induction false} SessionMovesKeepEnd(cfg: Config, s: State, st: SessionStep)
    requires EndOk(s.c) && PhaseOk(s.c) && NextSession(cfg, s, st).Some?
    ensures EndOk(NextSession(cfg, s, st).value.c)
  {
    hide EndOk;
    hide SelectNext;
    hide JoinNext;
    hide QueueNext;
    hide AfterQueueing;
    hide SayFarewell;
    match s.c.pc {
      case Select => SelectKeepsEnd(cfg, s, st);
      case Joining(out) => JoinKeepsEnd(s, out, st.panicked);
      case Queueing(h) => QueueingKeepsEnd(cfg, s, st.q);
      case AbortingTask(_) => FarewellKeepsEnd(s.c);
      case Flushing => SessionKeepsEnd(s.c, NextSession(cfg, s, st).value.c, []);
      case StoppingWriter => SessionKeepsEnd(s.c, NextSession(cfg, s, st).value.c, []);
      case StoppingActor => SessionKeepsEnd(s.c, NextSession(cfg, s, st).value.c, []);
      case Returned =>
    }
  }

  lemma {:induction false} StepKeepsEnd(cfg: Config, s: State, st: Step)
    requires EndOk(s.c) && Inv(cfg, s) && Next(cfg, s, st).Some?
    ensures EndOk(Next(cfg, s, st).value.c)
  {
    hide Inv;
    hide EndOk;
    ControlHolds(cfg, s);
    match st {
      case TaskMoves(t) => TaskMovesKeepEnd(cfg, s, t);
      case WriterMoves(w) => WriterMovesKeepEnd(s, w);
      case ActorMoves(a) => ActorMovesKeepEnd(cfg, s, a);
      case SessionMoves(m) => SessionMovesKeepEnd(cfg, s, m);
    }
  }

  lemma {:induction false} RunKeepsEnd(cfg: Config, s: State, events: seq<Event>)
    requires EndOk(s.c) && Inv(cfg, s) && Run(cfg, s, events).Some?
    ensures EndOk(Run(cfg, s, events).value.c)
    decreases |events|
  {
    hide Inv;
    hide EndOk;
    hide Next;
    if events != [] {
      if events[0].Own? {
        StepKeepsEnd(cfg, s, events[0].st);
      }
      EventKeepsInv(cfg, s, events[0]);
      RunKeepsEnd(cfg, Happen(cfg, s, events[0]).value, events[1..]);
    }
  }

  lemma {:induction false} ReachableEnd(cfg: Config, s: State)
    requires Reachable(cfg, s)
    ensures EndOk(s.c)
  {
    var used0: int, events :| 0 <= used0 <= cfg.limit && Run(cfg, State(INIT, used0), events) == Some(s);
    assert EndOk(INIT);
    hide Inv;
    hide EndOk;
    InitOk(cfg, used0);
    RunKeepsEnd(cfg, State(INIT, used0), events);
  }

  // ---------------------------------------------------------------- the theorems

  /** The event is the session's step that ends it for this reason, in a state in which it had not ended. */
  predicate EndedAt(cfg: Config, s: State, e: Event, exit: Exit) {
    && e.Own? && EndedBy(e.st, exit) && !RunOver(s.c.pc)
    && Next(cfg, s, e.st).Some? && RunOver(Next(cfg, s, e.st).value.c.pc)
  }

  lemma {:induction false} SessionEnded(cfg: Config, s: State, events: seq<Event>) returns (k: nat)
    requires !RunOver(s.c.pc) && Run(cfg, s, events).Some? && RunOver(Run(cfg, s, events).value.c.pc)
    ensures Run(cfg, s, events).value.c.exit.Some? && k < |events| && Run(cfg, s, events[..k]).Some?
    ensures EndedAt(cfg, Run(cfg, s, events[..k]).value, events[k], Run(cfg, s, events).value.c.exit.value)
    decreases |events|
  {
    hide Next;
    hide EndedBy;
    var s' := Happen(cfg, s, events[0]).value;
    if RunOver(s'.c.pc) {
      k := 0;
      assert events[..0] == [];
      EndsForItsReason(cfg, s, events[0].st);
      ExitStays(cfg, s', events[1..]);
    } else {
      k := SessionEnded(cfg, s', events[1..]);
      assert events[..k + 1][1..] == events[1..][..k];
      assert Run(cfg, s, events[..k + 1]) == Run(cfg, s', events[1..][..k]);
      k := k + 1;
    }
  }

  lemma {:induction false} ExitStays(cfg: Config, s: State, events: seq<Event>)
    requires RunOver(s.c.pc) && Run(cfg, s, events).Some?
    ensures Run(cfg, s, events).value.c.exit == s.c.exit
    decreases |events|
  {
    hide Next;
    hide RunOver;
    if events != [] {
      if events[0].Own? {
        TeardownOnlyAdvances(cfg, s, events[0].st);
      }
      ExitStays(cfg, Happen(cfg, s, events[0]).value, events[1..]);
    }
  }

  /**
   A close frame on the wire says why the connection ended, and there is none before the session has ended: it is the
   last frame, and event `k` of the run is the step that its reason names, by which the session ended.
   */
  lemma {:induction false} CloseFrameTellsWhy(cfg: Config, used0: int, events: seq<Event>, s: State, i: nat)
    returns (k: nat)
    requires 0 <= used0 <= cfg.limit && Run(cfg, State(INIT, used0), events) == Some(s)
    requires i < |s.c.writer.started| && IsClose(s.c.writer.started[i])
    ensures i == |s.c.writer.started| - 1 && RunOver(s.c.pc)
    ensures k < |events| && events[k].Own? && Run(cfg, State(INIT, used0), events[..k]).Some?
    ensures var before := Run(cfg, State(INIT, used0), events[..k]).value;
            !RunOver(before.c.pc) && Next(cfg, before, events[k].st).Some?
            && RunOver(Next(cfg, before, events[k].st).value.c.pc)
    ensures events[k].st == SessionMoves(match s.c.writer.started[i].m.reason
                                         case ClientShutdown => ObserveShutdown
                                         case HeartbeatTimeout => HeartbeatTick(true)
                                         case ServerEcho => ReadClose)
  {
    hide Inv;
    hide Run;
    hide Next;
    CloseIsFarewell(cfg, s, i);
    k := SessionEnded(cfg, State(INIT, used0), events);
  }

  lemma {:induction false} CloseIsFarewell(cfg: Config, s: State, i: nat)
    requires Reachable(cfg, s) && i < |s.c.writer.started| && IsClose(s.c.writer.started[i])
    ensures i == |s.c.writer.started| - 1 && RunOver(s.c.pc) && s.c.exit.Some?
    ensures FarewellFor(s.c.exit.value) == Some(s.c.writer.started[i].m)
  {
    hide Inv;
    ReachableOk(cfg, s);
    ReachableEnd(cfg, s);
    FramesInOrder(cfg, s);
    ControlHolds(cfg, s);
    StartedWasQueued(s.c.writer.started, i);
    hide Controls;
  }

  lemma {:induction false} StartedWasQueued(frames: seq<Frame>, i: nat)
    requires i < |frames| && frames[i].ControlFrame?
    ensures frames[i].m in Controls(frames)
  {
    if i < |frames| - 1 {
      StartedWasQueued(frames[..|frames| - 1], i);
    }
  }

  /** Every response that met its fate met the one its history says, and holds no memory. */
  lemma {:induction false} FatesMatchHistory(cfg: Config, s: State, p: Parcel)
    requires Reachable(cfg, s) && p in s.c.done
    ensures FateOk(p) && ReasonOk(s.c, p)
    ensures p.held == p.extra == p.uidCap == p.bodyCap == p.encCap == 0
  {
    hide Inv;
    ReachableOk(cfg, s);
    TraceHolds(cfg, s);
    ReachableEnd(cfg, s);
  }

  // ------------------------------------------------------------ the flush

  /** Nothing but the close frame is left to say after these messages. */
  predicate EndsWithClose(q: seq<Control>) {
    q != [] && q[|q| - 1].Close? && forall i :: 0 <= i < |q| - 1 ==> !q[i].Close?
  }

  /**
   `finish` queues the farewell exactly when the writer is alive and not yet observed dead, and the control queue has
   room.
   */
  lemma {:induction false} FarewellIsQueued(cfg: Config, s: State)
    requires Reachable(cfg, s) && s.c.pc.AbortingTask? && s.c.pc.farewell.Some? && NextSession(cfg, s, FinishTask).Some?
    ensures var c' := NextSession(cfg, s, FinishTask).value.c;
            && (c'.pc.Flushing? <==> WriterAlive(s.c) && |s.c.writer.control| < CONTROL_QUEUE_CAPACITY)
            && (c'.pc.Flushing? ==>
                  c'.writer.control == s.c.writer.control + [s.c.pc.farewell.value] && EndsWithClose(c'.writer.control)
                  && c'.writer.controlOpen && !(c'.writer.pc.WritingControl? && c'.writer.pc.m.Close?))
            && (!c'.pc.Flushing? ==> c'.writer == s.c.writer)
  {
    hide Inv;
    ReachableOk(cfg, s);
    ControlHolds(cfg, s);
    TraceHolds(cfg, s);
    ReachableEnd(cfg, s);
  }

  lemma {:induction false} FlushStep(cfg: Config, s: State)
    requires s.c.pc.Flushing? && WriterAlive(s.c) && s.c.writer.controlOpen
    requires EndsWithClose(s.c.writer.control) && !(s.c.writer.pc.WritingControl? && s.c.writer.pc.m.Close?)
    ensures Next(cfg, s, Writes(s.c)).Some?
    ensures var c' := Next(cfg, s, Writes(s.c)).value.c;
            && c'.pc.Flushing? && WriterAlive(c') && c'.writer.controlOpen
            && Writing(c') + 2 * |c'.writer.control| == Writing(s.c) + 2 * |s.c.writer.control| - 1
            && (if c'.writer.control == [] then
                  c'.writer.pc == WritingControl(s.c.writer.control[0]) && s.c.writer.control[0].Close?
                  && c'.writer.started == s.c.writer.started + [ControlFrame(s.c.writer.control[0])]
                else EndsWithClose(c'.writer.control) && !(c'.writer.pc.WritingControl? && c'.writer.pc.m.Close?)
                     && c'.writer.control[|c'.writer.control| - 1] == s.c.writer.control[|s.c.writer.control| - 1])
  {
  }

  lemma {:induction false} CloseIsLast(cfg: Config, s: State)
    requires s.c.pc.Flushing? && s.c.writer.pc.WritingControl? && s.c.writer.pc.m.Close?
    ensures Next(cfg, s, Writes(s.c)).Some?
    ensures var c' := Next(cfg, s, Writes(s.c)).value.c;
            c'.writer.pc == Stopped(true) && c'.writer.started == s.c.writer.started
  {
  }

  /**
   As long as sends succeed, a flushing writer sends the close frame after everything queued before it, in at most
   67 steps, and ends.
   */
  lemma {:induction false} CloseIsDelivered(cfg: Config, s: State) returns (steps: seq<Step>)
    requires s.c.pc.Flushing? && WriterAlive(s.c) && s.c.writer.controlOpen
    requires EndsWithClose(s.c.writer.control) && !(s.c.writer.pc.WritingControl? && s.c.writer.pc.m.Close?)
    ensures forall i :: 0 <= i < |steps| ==> steps[i] == WriterMoves(Poll) || steps[i] == WriterMoves(SendOk)
    ensures |steps| == Writing(s.c) + 2 * |s.c.writer.control|
    ensures Run(cfg, s, OwnEvents(steps)).Some?
    ensures var w := Run(cfg, s, OwnEvents(steps)).value.c.writer;
            && w.pc == Stopped(true) && w.started != []
            && w.started[|w.started| - 1] == ControlFrame(s.c.writer.control[|s.c.writer.control| - 1])
    decreases Writing(s.c) + 2 * |s.c.writer.control|
  {
    hide Next;
    var st := Writes(s.c);
    FlushStep(cfg, s);
    var s' := Next(cfg, s, st).value;
    var rest: seq<Step>;
    if s'.c.writer.control == [] {
      CloseIsLast(cfg, s');
      rest := [Writes(s'.c)];
      OneOwnStep(cfg, s', Writes(s'.c), []);
      hide Run;
    } else {
      hide Run;
      rest := CloseIsDelivered(cfg, s');
    }
    OneOwnStep(cfg, s, st, rest);
    steps := [st] + rest;
  }

  // ------------------------------------------------------------ the drain

  /** The writer is left to itself with whatever is queued, and no close frame among it. */
  predicate Draining(c: Conn) {
    && WriterAlive(c) && !c.senders && !ActorAlive(c)
    && NoClose(c.writer.control) && !(c.writer.pc.WritingControl? && c.writer.pc.m.Close?)
  }

  /**
   Steps left: two for each message and response, one for the send in progress, one for each input to close, one to
   end.
   */
  function DrainRank(c: Conn): nat {
    Writing(c) + 2 * |c.writer.control| + 2 * |c.bulk.queue|
    + (if c.writer.controlOpen then 1 else 0) + (if c.writer.bulkOpen then 1 else 0) + 1
  }

  lemma {:induction false} DrainStep(cfg: Config, s: State)
    requires Draining(s.c) && InputsOk(s.c)
    ensures Next(cfg, s, Writes(s.c)).Some?
    ensures var c' := Next(cfg, s, Writes(s.c)).value.c;
            && c'.writer.queued == s.c.writer.queued && c'.bulk.pushed == s.c.bulk.pushed
            && (c'.writer.pc == Stopped(true) || (Draining(c') && DrainRank(c') == DrainRank(s.c) - 1))
            && (c'.writer.started == s.c.writer.started
                || (c'.writer.started != []
                    && c'.writer.started[..|c'.writer.started| - 1] == s.c.writer.started
                    && !IsClose(c'.writer.started[|c'.writer.started| - 1])))
  {
    hide DropAll;
  }

  lemma {:induction false} NothingClosing(c: Conn)
    requires CloseLast(c.writer) && Draining(c)
    ensures NoCloseStarted(c.writer)
  {
  }

  predicate NoCloseStarted(w: Writer) {
    forall i :: 0 <= i < |w.started| ==> !IsClose(w.started[i])
  }

  lemma {:induction false} DrainSteps(cfg: Config, s: State) returns (steps: seq<Step>)
    requires Reachable(cfg, s) && Draining(s.c) && NoCloseStarted(s.c.writer)
    ensures |steps| <= DrainRank(s.c)
    ensures forall i :: 0 <= i < |steps| ==> steps[i] == WriterMoves(Poll) || steps[i] == WriterMoves(SendOk)
    ensures Run(cfg, s, OwnEvents(steps)).Some?
    ensures var c' := Run(cfg, s, OwnEvents(steps)).value.c;
            && Drained(c'.writer) && c'.writer.queued == s.c.writer.queued && c'.bulk.pushed == s.c.bulk.pushed
    decreases DrainRank(s.c)
  {
    hide Inv;
    hide Next;
    hide Run;
    hide Draining;
    hide InputsOk;
    ReachableOk(cfg, s);
    TraceHolds(cfg, s);
    InputsHold(cfg, s);
    DrainStep(cfg, s);
    var st := Writes(s.c);
    var s' := Next(cfg, s, st).value;
    ReachableStep(cfg, s, st);
    OneOwnStep(cfg, s, st, []);
    StartedStayOpen(s.c.writer, s'.c.writer);
    if s'.c.writer.pc == Stopped(true) {
      steps := [st];
    } else {
      var rest := DrainSteps(cfg, s');
      OneOwnStep(cfg, s, st, rest);
      steps := [st] + rest;
    }
  }

  lemma {:induction false} StartedStayOpen(w: Writer, w': Writer)
    requires NoCloseStarted(w)
    requires w'.started == w.started
             || (w'.started != [] && w'.started[..|w'.started| - 1] == w.started
                 && !IsClose(w'.started[|w'.started| - 1]))
    ensures NoCloseStarted(w')
  {
  }

  /**
   Once session and actor are gone and no close frame is waiting, the writer comes to its end by itself as long as its
   sends succeed, within two steps per queued message or response and four more, and then everything that was ever
   queued has been written.
   */
  lemma {:induction false} DrainTerminates(cfg: Config, s: State) returns (steps: seq<Step>)
    requires Reachable(cfg, s) && Draining(s.c)
    ensures |steps| <= Writing(s.c) + 2 * |s.c.writer.control| + 2 * |s.c.bulk.queue| + 3
    ensures forall i :: 0 <= i < |steps| ==> steps[i] == WriterMoves(Poll) || steps[i] == WriterMoves(SendOk)
    ensures Run(cfg, s, OwnEvents(steps)).Some?
    ensures var c' := Run(cfg, s, OwnEvents(steps)).value.c;
            && c'.writer.pc == Stopped(true)
            && Controls(c'.writer.started) == c'.writer.queued == s.c.writer.queued
            && BulkKeys(c'.writer.started) == c'.bulk.pushed == s.c.bulk.pushed
            && forall k :: k in c'.bulk.pushed ==> exists p :: p in c'.done && KeyOf(p) == k && p.fate == Written
  {
    hide Inv;
    hide Run;
    hide Controls;
    hide BulkKeys;
    ReachableOk(cfg, s);
    TraceHolds(cfg, s);
    NothingClosing(s.c);
    steps := DrainSteps(cfg, s);
    StaysReachable(cfg, s, OwnEvents(steps));
    var s' := Run(cfg, s, OwnEvents(steps)).value;
    hide Reachable;
    ReachableOk(cfg, s');
    TraceHolds(cfg, s');
    forall k | k in s'.c.bulk.pushed
      ensures exists p :: p in s'.c.done && KeyOf(p) == k && p.fate == Written
    {
      DrainedMeansWritten(cfg, s', k);
    }
  }

  // ------------------------------------------------------------------- teardown

  /** A step of the cleanup that needs no help from server, exporter or network. */
  function NextCleanup(c: Conn): Step
    requires RunOver(c.pc) && !c.pc.Returned?
  {
    match c.pc
    case AbortingTask(_) =>
      if c.task.None? || c.task.value.Sent? then SessionMoves(FinishTask) else TaskMoves(AbortTask)
    case Flushing => SessionMoves(FlushEnds(true))
    case StoppingWriter => if WriterAlive(c) then WriterMoves(AbortWriter) else SessionMoves(WriterJoined)
    case StoppingActor => if ActorAlive(c) then ActorMoves(AbortActor) else SessionMoves(ActorJoined)
  }

  function CleanupRank(c: Conn): nat {
    match c.pc
    case AbortingTask(_) => if c.task.None? || c.task.value.Sent? then 6 else 7
    case Flushing => 5
    case StoppingWriter => if WriterAlive(c) then 4 else 3
    case StoppingActor => if ActorAlive(c) then 2 else 1
    case _ => 0
  }

  lemma {:induction false} CleanupProceeds(cfg: Config, s: State)
    requires RunOver(s.c.pc) && !s.c.pc.Returned?
    ensures Next(cfg, s, NextCleanup(s.c)).Some?
    ensures var s' := Next(cfg, s, NextCleanup(s.c)).value; RunOver(s'.c.pc) && CleanupRank(s'.c) < CleanupRank(s.c)
  {
    match NextCleanup(s.c) {
      case TaskMoves(_) => AbortEndsTask(cfg, s);
      case WriterMoves(_) =>
        hide StopWriter;
        AbortEndsWriter(s);
      case ActorMoves(_) =>
        hide StopActor;
        AbortEndsActor(cfg, s);
      case SessionMoves(_) =>
        hide QueueNext;
    }
  }

  lemma {:induction false} AbortEndsTask(cfg: Config, s: State)
    requires s.c.pc.AbortingTask? && s.c.task.Some?
    ensures NextTask(cfg, s, AbortTask).Some?
    ensures var c' := NextTask(cfg, s, AbortTask).value.c; c'.pc == s.c.pc && c'.task.None?
  {
  }

  lemma {:induction false} AbortEndsWriter(s: State)
    requires s.c.pc.StoppingWriter? && WriterAlive(s.c)
    ensures NextWriter(s, AbortWriter).Some?
    ensures var c' := NextWriter(s, AbortWriter).value.c; c'.pc == s.c.pc && !WriterAlive(c')
  {
  }

  lemma {:induction false} AbortEndsActor(cfg: Config, s: State)
    requires s.c.pc.StoppingActor? && ActorAlive(s.c)
    ensures NextActor(cfg, s, AbortActor).Some?
    ensures var c' := NextActor(cfg, s, AbortActor).value.c; c'.pc == s.c.pc && !ActorAlive(c')
  {
  }

  /**
   What the teardown waits for: the scrape task to be gone, the writer to end or the flush to time out, the writer to
   end, the actor to end; and where it goes from there. A flush that succeeds needs no abort.
   */
  lemma {:induction false} TeardownMovesExactlyWhen(cfg: Config, s: State)
    ensures NextSession(cfg, s, FinishTask).Some? <==>
            s.c.pc.AbortingTask? && (s.c.task.None? || s.c.task.value.Sent?)
    ensures NextSession(cfg, s, FlushEnds(false)) ==
            if s.c.pc.Flushing? && s.c.writer.pc.Stopped? then Some(State(s.c.(pc := StoppingActor), s.used)) else None
    ensures NextSession(cfg, s, FlushEnds(true)) ==
            if s.c.pc.Flushing? then Some(State(s.c.(pc := StoppingWriter), s.used)) else None
    ensures NextSession(cfg, s, WriterJoined) ==
            if s.c.pc.StoppingWriter? && s.c.writer.pc.Stopped? then Some(State(s.c.(pc := StoppingActor), s.used))
            else None
    ensures NextSession(cfg, s, ActorJoined) ==
            if s.c.pc.StoppingActor? && s.c.actor.pc.Ended? then Some(State(s.c.(pc := Connection.Returned), s.used))
            else None
  {
    hide Leave;
    hide ReceiveRequest;
    hide JoinNext;
    hide QueueNext;
  }

  /**
   Once `run` is over nothing brings it back: every step stays in the teardown and never returns to an earlier phase.
   */
  lemma {:induction false} TeardownOnlyAdvances(cfg: Config, s: State, st: Step)
    requires RunOver(s.c.pc) && Next(cfg, s, st).Some?
    ensures var s' := Next(cfg, s, st).value;
            && RunOver(s'.c.pc) && s'.c.exit == s.c.exit && s'.c.next == s.c.next
            && CleanupRank(s'.c) <= CleanupRank(s.c)
  {
    hide QueueNext;
    hide StopActor;
    hide StopWriter;
    match st {
      case TaskMoves(_) =>
      case WriterMoves(_) =>
        hide TaskNext;
        hide ActorNext;
      case ActorMoves(_) =>
        hide TaskNext;
        hide WriterNext;
      case SessionMoves(_) =>
        hide TaskNext;
        hide ActorNext;
        hide WriterNext;
        hide SelectNext;
    }
  }

  /**
   The teardown comes to its end by at most 7 steps of the worker alone, from wherever it is; the budget then
   has back exactly what this connection had reserved.
   */
  lemma {:induction false} TeardownTerminates(cfg: Config, s: State) returns (steps: seq<Step>)
    requires Reachable(cfg, s) && RunOver(s.c.pc)
    ensures |steps| <= 7 && Run(cfg, s, OwnEvents(steps)).Some?
    ensures var s' := Run(cfg, s, OwnEvents(steps)).value;
            s'.c.pc.Returned? && s'.used == s.used - LiveTotal(Reserved, s.c)
  {
    hide Inv;
    hide Run;
    hide LiveTotal;
    hide LiveParcels;
    ReachableOk(cfg, s);
    steps := CleanupSteps(cfg, s);
    OthersUntouched(cfg, s, steps);
    var s' := Run(cfg, s, OwnEvents(steps)).value;
    StaysReachable(cfg, s, OwnEvents(steps));
    NothingLeftBehind(cfg, s');
  }

  lemma {:induction false} CleanupSteps(cfg: Config, s: State) returns (steps: seq<Step>)
    requires RunOver(s.c.pc)
    ensures |steps| <= CleanupRank(s.c) && Run(cfg, s, OwnEvents(steps)).Some?
    ensures Run(cfg, s, OwnEvents(steps)).value.c.pc.Returned?
    decreases CleanupRank(s.c)
  {
    steps := [];
    if !s.c.pc.Returned? {
      var st := NextCleanup(s.c);
      CleanupProceeds(cfg, s);
      var rest := CleanupSteps(cfg, Next(cfg, s, st).value);
      steps := [st] + rest;
      assert steps[1..] == rest;
      assert OwnEvents(steps)[1..] == OwnEvents(rest);
      hide Next;
    }
  }

  /** A connection that has returned is done: no part of it can take another step. */
  lemma {:induction false} ReturnedIsFinal(cfg: Config, s: State, st: Step)
    requires Reachable(cfg, s) && s.c.pc.Returned?
    ensures Next(cfg, s, st) == None
  {
    hide Inv;
    ReachableOk(cfg, s);
    ControlHolds(cfg, s);
  }
}
