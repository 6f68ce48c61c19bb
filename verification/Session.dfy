/**
 The session as the object it is: its fields, and its methods up to the point where they wait. Each is proved to
 do what the corresponding step of the connection does and, with that, to keep the invariant of all reachable states.
 */
module SessionObject {
  import opened Options
  import opened Bytes
  import opened Protocol
  import opened Parcels
  import opened BulkQueue
  import opened ScrapeTask
  import opened BusyAnswers
  import opened WriterLoop
  import opened Connection
  import opened ConnectionRuns
  import opened ConnectionSelect

  /** A frame from the server, as the select loop takes it. */
  datatype Inbound =
    | Ended                                  // an error, or the end of the stream
    | Text(m: Option<IncomingMessage>)       // `None`: not valid JSON
    | PingData
    | PongData
    | CloseData
    | Unsupported

  class Session {
    const cfg: Config
    const heartbeatTimeout: real
    var lastInbound: real
    var pc: SessionPc
    var active: bool
    var writerDone: bool
    var senders: bool
    var exit: Option<Exit>
    var task: Option<Task>
    var slot: Option<Option<Parcel>>
    var actor: BusyActor
    var bulk: Bulk
    var writer: Writer
    var next: nat
    var done: seq<Parcel>
    var posted: seq<Key>
    var used: int

    function Now(): State
      reads this
    {
      State(Conn(pc, active, writerDone, senders, exit, task, slot, actor, bulk, writer, next, done, posted), used)
    }

    constructor (cfg: Config, heartbeatTimeout: real, now: real, used: int)
      ensures Now() == State(INIT, used) && this.cfg == cfg
      ensures this.heartbeatTimeout == heartbeatTimeout && lastInbound == now
      ensures 0 <= used <= cfg.limit ==> Inv(cfg, Now())
    {
      this.cfg, this.heartbeatTimeout, lastInbound, this.used := cfg, heartbeatTimeout, now, used;
      pc, active, writerDone, senders, exit := Select, false, false, true, None;
      task, slot, actor := None, None, BusyActor([], true, [], Serving);
      bulk, writer := EMPTY, NEW_WRITER;
      next, done, posted := 0, [], [];
      new;
      if 0 <= used <= cfg.limit {
        InitOk(cfg, used);
      }
    }

    /** A step of the session keeps the invariant. */
    lemma {:induction false} StepKept(before: State, st: SessionStep)
      requires NextSession(cfg, before, st) == Some(Now())
      ensures Inv(cfg, before) ==> Inv(cfg, Now())
    {
      hide Inv;
      hide NextSession;
      if Inv(cfg, before) {
        StepKeepsInv(cfg, before, SessionMoves(st));
      }
    }

    /** `try_send` on the control queue, with its result thrown away. */
    method Say(m: Control)
      modifies `writer
      ensures Now() == State(Connection.Say(old(Now()).c, m), old(used))
    {
      if !writer.pc.Stopped? && |writer.control| < CONTROL_QUEUE_CAPACITY {
        writer := writer.(control := writer.control + [m], queued := writer.queued + [m]);
      }
    }

    /** `run` returns: the completion receiver goes away with whatever is in it. */
    method Return(why: Exit, farewell: Option<Control>)
      modifies `pc, `exit, `slot, `done, `used
      ensures Now() == Leave(old(Now()), why, farewell)
    {
      var lost := SlotParcel(slot);
      if lost.Some? {
        done := done + [Drop(lost.value, ConnectionEnded)];
        used := used - (lost.value.held + lost.value.extra);
      } else {
        assert done + [] == done;
      }
      slot := None;
      exit := Some(why);
      pc := AbortingTask(farewell);
    }

    /**
     A heartbeat tick: the session ends if the last frame is too long ago, and pings otherwise; the scrape goes on.
     */
    method Tick(now: real)
      requires pc.Select?
      modifies this
      ensures Some(Now()) == NextSession(cfg, old(Now()), HeartbeatTick(now - lastInbound > heartbeatTimeout))
      ensures old(Inv(cfg, Now())) ==> Inv(cfg, Now())
      ensures lastInbound == old(lastInbound) && task == old(task) && active == old(active)
      ensures if now - lastInbound > heartbeatTimeout then
                Ends(old(Now()), Now(), HeartbeatExpired, Some(Close(HeartbeatTimeout)))
              else Now() == Saying(old(Now()), [PingText, PingFrame])
    {
      ghost var before := Now();
      SayingTwo(before, PingText, PingFrame);
      LeavingEnds(before, HeartbeatExpired, Some(Close(HeartbeatTimeout)));
      LeavingByRead(cfg, before);
      BranchesThatSpeak(cfg, before, []);
      hide Inv;
      hide NextSession;
      hide Leave;
      hide Ends;
      hide Saying;
      hide Connection.Say;
      if now - lastInbound > heartbeatTimeout {
        Return(HeartbeatExpired, Some(Close(HeartbeatTimeout)));
      } else {
        Say(PingText);
        Say(PingFrame);
      }
      StepKept(before, HeartbeatTick(now - lastInbound > heartbeatTimeout));
    }

    /** The branch that receives a completion; the scrape task is joined next. */
    method ReceiveCompletion()
      requires pc.Select? && active && slot.Some?
      modifies `pc, `active, `slot
      ensures Some(Now()) == NextSession(cfg, old(Now()), TakeCompletion)
      ensures old(Inv(cfg, Now())) ==> Inv(cfg, Now())
      ensures pc == Joining(old(slot).value) && slot.None? && !active
    {
      ghost var before := Now();
      var response := slot.value;
      slot := None;
      active := false;
      pc := Joining(response);
      StepKept(before, TakeCompletion);
    }

    /** A request while idle starts the one scrape; while busy it is answered with a 503. */
    method HandleRequest(uid: bytes, uidCap: nat)
      requires pc.Select? && |uid| <= MAX_UID_SIZE && |uid| <= uidCap
      modifies this
      ensures Some(Now()) == NextSession(cfg, old(Now()), ReadRequest(uid, uidCap))
      ensures old(Inv(cfg, Now())) ==> Inv(cfg, Now())
      ensures lastInbound == old(lastInbound) && next == old(next) + 1 && active && slot == old(slot)
      ensures task == if old(active) then old(task) else Some(Calling(NewScrape(old(next), uid)))
      ensures if !old(active) then pc.Select? && done == old(done) && used == old(used)
              else if old(used) + uidCap > cfg.limit then
                && pc.Select? && used == old(used) && actor == old(actor)
                && done == old(done) + [Drop(NewBusy(old(next), uid, uidCap), MemoryRefused)]
              else Answering503(old(Now()).c, Now().c, NewBusy(old(next), uid, uidCap)) && used == old(used) + uidCap
    {
      hide ReceiveRequest;
      ghost var before := Now();
      TakeRequest(uid, uidCap);
      StepKept(before, ReadRequest(uid, uidCap));
    }

    method TakeRequest(uid: bytes, uidCap: nat)
      requires pc.Select?
      modifies this
      ensures Now() == ReceiveRequest(cfg, old(Now()), uid, uidCap)
      ensures lastInbound == old(lastInbound) && next == old(next) + 1 && active && slot == old(slot)
      ensures task == if old(active) then old(task) else Some(Calling(NewScrape(old(next), uid)))
      ensures if !old(active) then pc.Select? && done == old(done) && used == old(used)
              else if old(used) + uidCap > cfg.limit then
                && pc.Select? && used == old(used) && actor == old(actor)
                && done == old(done) + [Drop(NewBusy(old(next), uid, uidCap), MemoryRefused)]
              else Answering503(old(Now()).c, Now().c, NewBusy(old(next), uid, uidCap)) && used == old(used) + uidCap
    {
      hide NewBusy;
      hide Connection.AnswerBusy;
      var id := next;
      next := next + 1;
      if active {
        var busy := NewBusy(id, uid, uidCap);
        if used + uidCap <= cfg.limit {
          used := used + uidCap;
          AnswerBusy(busy);
        } else {
          done := done + [Drop(busy, MemoryRefused)];
        }
      } else {
        active := true;
        task := Some(Calling(NewScrape(id, uid)));
      }
    }

    /** The busy answer waits for its POST on wire 3 as long as there is room for it, else for the WebSocket. */
    predicate Answering503(c: Conn, c': Conn, p: Parcel) {
      if cfg.protocol == 3 && !c.actor.pc.Ended? && |c.actor.queue| < BUSY_RESPONSE_QUEUE_CAPACITY then
        c'.pc == c.pc && c'.actor == c.actor.(queue := c.actor.queue + [p])
      else c'.pc == Queueing(Hold(p, AtReserve)) && c'.actor == c.actor
    }

    /** Wire 3 hands the answer to the actor if its queue takes it; otherwise the answer goes over the WebSocket. */
    method AnswerBusy(p: Parcel)
      requires pc.Select?
      modifies `actor, `pc
      ensures Now() == State(Connection.AnswerBusy(cfg, old(Now()).c, p), used)
      ensures Answering503(old(Now()).c, Now().c, p)
    {
      if cfg.protocol == 3 {
        if !actor.pc.Ended? && |actor.queue| < BUSY_RESPONSE_QUEUE_CAPACITY {
          actor := actor.(queue := actor.queue + [p]);
          return;
        }
      }
      pc := Queueing(StartQueueing(p));
    }

    method HandleText(text: Option<IncomingMessage>, uidCap: nat)
      requires pc.Select? && (text.Some? && text.value.Request? ==> |text.value.uid| <= uidCap)
      modifies this
      ensures Some(Now()) ==
              NextSession(cfg, old(Now()), if text.Some? then TextStep(text.value, uidCap) else ReadIgnored)
      ensures old(Inv(cfg, Now())) ==> Inv(cfg, Now())
      ensures lastInbound == old(lastInbound) && (task != old(task) ==> !old(active))
      ensures var heard := if text.Some? && Validate(text.value).None? then text.value else Unknown;
              match heard
              case Ping => Now() == Saying(old(Now()), [PongText])
              case Ready(uid) =>
                Now() == Saying(old(Now()), if cfg.protocol >= 2 && !old(active) then [ReadyAnswer(uid)] else [])
              case Request(_, _) => next == old(next) + 1
              case _ => Now() == old(Now())
    {
      SayingOne(Now(), PongText);
      SayingNothing(Now());
      if text.Some? && text.value.Ready? && |text.value.uid| <= MAX_UID_SIZE {
        SayingOne(Now(), ReadyAnswer(text.value.uid));
        BranchesThatSpeak(cfg, Now(), text.value.uid);
      }
      BranchesThatSpeak(cfg, Now(), []);
      hide Inv;
      hide NextSession;
      hide Saying;
      hide Connection.Say;
      hide ReceiveRequest;
      hide Answering503;
      if text.None? || Validate(text.value).Some? {
        return;
      }
      ghost var before := Now();
      match text.value {
        case Ping =>
          Say(PongText);
        case Ready(uid) =>
          if cfg.protocol >= 2 && !active {
            Say(ReadyAnswer(uid));
          }
        case Request(uid, _) =>
          HandleRequest(uid, uidCap);
        case Pong =>
        case Unknown =>
      }
      StepKept(before, TextStep(text.value, uidCap));
    }

    /** The step that stands for a frame. */
    static function ReadStep(frame: Inbound, uidCap: nat): SessionStep {
      match frame
      case Ended => ReadEnd
      case Text(m) => if m.Some? then TextStep(m.value, uidCap) else ReadIgnored
      case PingData => ReadPingFrame
      case PongData => ReadIgnored
      case CloseData => ReadClose
      case Unsupported => ReadIgnored
    }

    static lemma {:induction false} LeavingByRead(cfg: Config, s: State)
      requires s.c.pc.Select?
      ensures NextSession(cfg, s, ReadEnd) == Some(Leave(s, ReadEnded, None))
      ensures NextSession(cfg, s, ReadClose) == Some(Leave(s, ServerClosed, Some(Close(ServerEcho))))
      ensures NextSession(cfg, s, HeartbeatTick(true))
              == Some(Leave(s, HeartbeatExpired, Some(Close(HeartbeatTimeout))))
    {
      hide Leave;
    }

    /** The frames that are no text, and the end of the stream. */
    method ReadOther(frame: Inbound)
      requires pc.Select? && !frame.Text?
      modifies `pc, `exit, `slot, `done, `used, `writer
      ensures Some(Now()) == NextSession(cfg, old(Now()), ReadStep(frame, 0))
      ensures match frame
              case Ended => Ends(old(Now()), Now(), ReadEnded, None)
              case CloseData => Ends(old(Now()), Now(), ServerClosed, Some(Close(ServerEcho)))
              case PingData => Now() == Saying(old(Now()), [PongFrame])
              case _ => Now() == old(Now())
    {
      ghost var before := Now();
      SayingOne(before, PongFrame);
      LeavingEnds(before, ReadEnded, None);
      LeavingEnds(before, ServerClosed, Some(Close(ServerEcho)));
      LeavingByRead(cfg, before);
      BranchesThatSpeak(cfg, before, []);
      hide NextSession;
      hide Leave;
      hide Ends;
      hide Saying;
      hide Connection.Say;
      match frame {
        case Ended =>
          Return(ReadEnded, None);
        case PingData =>
          Say(PongFrame);
        case CloseData =>
          Return(ServerClosed, Some(Close(ServerEcho)));
        case PongData =>
        case Unsupported =>
      }
    }

    /** The branch that reads a frame: any frame counts as a sign of life, the end of the stream does not. */
    method Read(frame: Inbound, uidCap: nat, now: real)
      requires pc.Select? && (frame.Text? && frame.m.Some? && frame.m.value.Request? ==> |frame.m.value.uid| <= uidCap)
      modifies this
      ensures Some(Now()) == NextSession(cfg, old(Now()), ReadStep(frame, uidCap))
      ensures old(Inv(cfg, Now())) ==> Inv(cfg, Now())
      ensures lastInbound == if frame.Ended? then old(lastInbound) else now
      ensures match frame
              case Ended => Ends(old(Now()), Now(), ReadEnded, None)
              case CloseData => Ends(old(Now()), Now(), ServerClosed, Some(Close(ServerEcho)))
              case PingData => Now() == Saying(old(Now()), [PongFrame])
              case Text(_) => true
              case _ => Now() == old(Now())
    {
      hide Inv;
      hide NextSession;
      hide Ends;
      hide Saying;
      hide TextStep;
      hide Validate;
      hide Answering503;
      ghost var before := Now();
      if !frame.Ended? {
        lastInbound := now;
      }
      if frame.Text? {
        HandleText(frame.m, uidCap);
      } else {
        ReadOther(frame);
        StepKept(before, ReadStep(frame, uidCap));
      }
    }

    /** The farewell is queued only if the writer is healthy and has room; then all senders are dropped. */
    method SayGoodbye(farewell: Option<Control>)
      modifies `writer, `senders, `pc
      ensures Now() == State(SayFarewell(old(Now()).c, farewell), old(used))
    {
      if writerDone {
        senders := false;
        pc := StoppingActor;
        return;
      }
      var queued := false;
      if farewell.Some? && !writer.pc.Stopped? && |writer.control| < CONTROL_QUEUE_CAPACITY {
        Say(farewell.value);
        queued := true;
      }
      senders := false;
      pc := if queued then Flushing else StoppingWriter;
    }

    /** `finish` once the aborted task is gone, up to the wait for the writer. */
    method Finish()
      requires pc.AbortingTask? && (task.None? || task.value.Sent?)
      modifies this
      ensures Some(Now()) == NextSession(cfg, old(Now()), FinishTask)
      ensures old(Inv(cfg, Now())) ==> Inv(cfg, Now())
      ensures !senders && task.None? && used == old(used)
    {
      ghost var before := Now();
      var farewell := pc.farewell;
      task := None;
      active := false;
      SayGoodbye(farewell);
      FarewellDropsSenders(before.c.(task := None, active := false), farewell);
      hide SayFarewell;
      StepKept(before, FinishTask);
    }

    static lemma {:induction false} FarewellDropsSenders(c: Conn, farewell: Option<Control>)
      ensures var c' := SayFarewell(c, farewell); !c'.senders && c'.task == c.task
    {
    }
  }
}
