/**
 The branches of the session's select loop, one by one: what each of them queues for the writer, and which of them end
 the session, with which exit and which farewell.
 */
module ConnectionSelect {
  import opened Options
  import opened Bytes
  import opened Protocol
  import opened Parcels
  import opened BulkQueue
  import opened ScrapeTask
  import opened BusyAnswers
  import opened WriterLoop
  import opened Connection

  /** As many of the messages, in order, as the control queue has room for; none once the writer is gone. */
  function Fitting(w: Writer, messages: seq<Control>): seq<Control> {
    var room := if w.pc.Stopped? || |w.control| > CONTROL_QUEUE_CAPACITY then 0
                else CONTROL_QUEUE_CAPACITY - |w.control|;
    if |messages| <= room then messages else messages[..room]
  }

  /** The session queues these messages and does nothing else. */
  function Saying(s: State, messages: seq<Control>): State {
    var said := Fitting(s.c.writer, messages);
    var w := s.c.writer;
    State(s.c.(writer := w.(control := w.control + said, queued := w.queued + said)), s.used)
  }

  /** The session has ended for this reason with this farewell; only a completion nobody took is dropped. */
  predicate Ends(s: State, s': State, exit: Exit, farewell: Option<Control>) {
    var lost := SlotParcel(s.c.slot);
    && s'.c.pc == AbortingTask(farewell) && s'.c.exit == Some(exit) && s'.c.slot == None
    && s'.c.task == s.c.task && s'.c.active == s.c.active && s'.c.senders == s.c.senders && s'.c.next == s.c.next
    && s'.c.actor == s.c.actor && s'.c.bulk == s.c.bulk && s'.c.writer == s.c.writer && s'.c.posted == s.c.posted
    && s'.c.writerDone == (s.c.writerDone || exit == WriterStopped)
    && s'.c.done == s.c.done + (if lost.Some? then [Drop(lost.value, ConnectionEnded)] else [])
    && s'.used == s.used - (if lost.Some? then lost.value.held + lost.value.extra else 0)
  }

  lemma {:induction false} OneByOne(w: Writer, a: Control, b: Control)
    ensures TryControl(w, a) == w.(control := w.control + Fitting(w, [a]), queued := w.queued + Fitting(w, [a]))
    ensures TryControl(TryControl(w, a), b)
            == w.(control := w.control + Fitting(w, [a, b]), queued := w.queued + Fitting(w, [a, b]))
  {
    assert w.control + [] == w.control && w.queued + [] == w.queued;
    assert [a, b][..1] == [a] && [a][..0] == [] && [a, b][..0] == [];
    assert (w.control + [a]) + [b] == w.control + [a, b] && (w.queued + [a]) + [b] == w.queued + [a, b];
  }

  lemma {:induction false} SayingOne(s: State, m: Control)
    ensures State(Say(s.c, m), s.used) == Saying(s, [m])
  {
    OneByOne(s.c.writer, m, m);
    hide Fitting;
  }

  lemma {:induction false} SayingTwo(s: State, a: Control, b: Control)
    ensures State(Say(Say(s.c, a), b), s.used) == Saying(s, [a, b])
  {
    OneByOne(s.c.writer, a, b);
    hide Fitting;
  }

  lemma {:induction false} SayingNothing(s: State)
    ensures Saying(s, []) == s
  {
    assert s.c.writer.control + [] == s.c.writer.control && s.c.writer.queued + [] == s.c.writer.queued;
  }

  /** The branches after which the loop goes on with its scrape, and what they say. */
  lemma {:induction false} BranchesThatSpeak(cfg: Config, s: State, uid: bytes)
    requires s.c.pc.Select? && |uid| <= MAX_UID_SIZE
    ensures NextSession(cfg, s, HeartbeatTick(false)) == Some(Saying(s, [PingText, PingFrame]))
    ensures NextSession(cfg, s, ReadPingFrame) == Some(Saying(s, [PongFrame]))
    ensures NextSession(cfg, s, ReadPingText) == Some(Saying(s, [PongText]))
    ensures NextSession(cfg, s, ReadReady(uid))
            == Some(Saying(s, if cfg.protocol >= 2 && !s.c.active then [ReadyAnswer(uid)] else []))
    ensures NextSession(cfg, s, ReadIgnored) == Some(s)
  {
    SayingTwo(s, PingText, PingFrame);
    SayingOne(s, PongFrame);
    SayingOne(s, PongText);
    SayingOne(s, ReadyAnswer(uid));
    SayingNothing(s);
    hide Saying;
    hide Say;
  }

  lemma {:induction false} LeavingEnds(s: State, exit: Exit, farewell: Option<Control>)
    requires exit != WriterStopped
    ensures Ends(s, Leave(s, exit, farewell), exit, farewell)
  {
  }

  /** The branches that end the session. */
  lemma {:induction false} BranchesThatEnd(cfg: Config, s: State)
    requires s.c.pc.Select?
    ensures var r := NextSession(cfg, s, ObserveShutdown);
            r.Some? && Ends(s, r.value, Shutdown, Some(Close(ClientShutdown)))
    ensures var r := NextSession(cfg, s, HeartbeatTick(true));
            r.Some? && Ends(s, r.value, HeartbeatExpired, Some(Close(HeartbeatTimeout)))
    ensures var r := NextSession(cfg, s, ReadClose);
            r.Some? && Ends(s, r.value, ServerClosed, Some(Close(ServerEcho)))
    ensures var r := NextSession(cfg, s, ReadEnd);
            r.Some? && Ends(s, r.value, ReadEnded, None)
    ensures var r := NextSession(cfg, s, ObserveWriterEnd);
            (r.Some? <==> !WriterAlive(s.c)) && (r.Some? ==> Ends(s, r.value, WriterStopped, None))
  {
  }

  /**
   A completion is taken exactly when there is one; then its task is joined, and its response, if it has one, goes on
   to be queued while the worker is idle again.
   */
  lemma {:induction false} CompletionIsTaken(cfg: Config, s: State)
    requires s.c.pc.Select?
    ensures NextSession(cfg, s, TakeCompletion).Some? <==> s.c.active && s.c.slot.Some?
    ensures s.c.active && s.c.slot.Some? ==>
              var s' := NextSession(cfg, s, TakeCompletion).value;
              && s' == State(s.c.(active := false, slot := None, pc := Joining(s.c.slot.value)), s.used)
              && (NextSession(cfg, s', JoinTask(false)).Some? <==> s.c.task.None? || s.c.task.value.Sent?)
              && (s.c.task.None? || s.c.task.value.Sent? ==>
                    NextSession(cfg, s', JoinTask(false)) ==
                      Some(State(s'.c.(task := None, pc := if s.c.slot.value.Some? then
                                                            Queueing(Hold(s.c.slot.value.value, AtReserve))
                                                          else Select), s.used)))
  {
  }

  /** The session's step that ends it for this reason. */
  predicate EndedBy(st: Step, exit: Exit) {
    match exit
    case Shutdown => st == SessionMoves(ObserveShutdown)
    case WriterStopped => st == SessionMoves(ObserveWriterEnd)
    case HeartbeatExpired => st == SessionMoves(HeartbeatTick(true))
    case ReadEnded => st == SessionMoves(ReadEnd)
    case ServerClosed => st == SessionMoves(ReadClose)
    case QueueFailed => st == SessionMoves(QueueingStep(FindClosed))
    case TaskFailed => st == SessionMoves(JoinTask(true))
  }

  lemma {:induction false} SelectEndsIt(cfg: Config, s: State, st: SessionStep)
    requires SelectNext(cfg, s, st).Some?
    ensures var c' := SelectNext(cfg, s, st).value.c;
            !RunOver(s.c.pc) && RunOver(c'.pc) ==> c'.exit.Some? && EndedBy(SessionMoves(st), c'.exit.value)
  {
  }

  lemma {:induction false} JoinEndsIt(s: State, out: Option<Parcel>, panicked: bool)
    requires JoinNext(s, out, panicked).Some?
    ensures var c' := JoinNext(s, out, panicked).value.c;
            RunOver(c'.pc) ==> c'.exit.Some? && EndedBy(SessionMoves(JoinTask(panicked)), c'.exit.value)
  {
  }

  lemma {:induction false} QueueingEndsIt(cfg: Config, s: State, h: Hold, q: QueueStep)
    requires QueueNext(cfg, s.used, s.c.bulk, WriterAlive(s.c), Session, h, q).Some?
    ensures var c' := AfterQueueing(s, QueueNext(cfg, s.used, s.c.bulk, WriterAlive(s.c), Session, h, q).value).c;
            RunOver(c'.pc) ==> c'.exit.Some? && EndedBy(SessionMoves(QueueingStep(q)), c'.exit.value)
  {
  }

  /** A step that ends the session records its own reason, and no other step ends it. */
  lemma {:induction false} EndsForItsReason(cfg: Config, s: State, st: Step)
    requires Next(cfg, s, st).Some? && !RunOver(s.c.pc)
    ensures var c' := Next(cfg, s, st).value.c;
            RunOver(c'.pc) ==> c'.exit.Some? && EndedBy(st, c'.exit.value)
  {
    hide TaskNext;
    hide ActorNext;
    hide WriterNext;
    hide SelectNext;
    hide JoinNext;
    hide QueueNext;
    hide AfterQueueing;
    hide EndedBy;
    match st {
      case SessionMoves(m) =>
        match s.c.pc {
          case Select => SelectEndsIt(cfg, s, m);
          case Joining(out) => JoinEndsIt(s, out, m.panicked);
          case Queueing(h) => QueueingEndsIt(cfg, s, h, m.q);
        }
      case _ =>
        hide NextSession;
    }
  }
}
