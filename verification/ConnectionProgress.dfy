/** Blocking and progress: whoever waits for the bulk queue waits for the writer, the session never for long. */
module ConnectionProgress {
  import opened Options
  import opened Bytes
  import opened Protocol
  import opened Parcels
  import opened BulkQueue
  import opened ScrapeTask
  import opened BusyAnswers
  import opened WriterLoop
  import opened Connection
  import opened ConnectionInvariant
  import opened ConnectionBooks
  import opened ConnectionControl
  import opened WriterTrace
  import opened ConnectionRuns
  import opened ConnectionSafety
  import opened Timing

  // ---------------------------------------------------------------- no deadlock

  /** The session stands in line for a slot of the bulk queue; it reads nothing meanwhile. */
  predicate SessionStuck(c: Conn) {
    c.pc.Queueing? && c.pc.h.at == AtWait && WriterAlive(c) && Session in c.bulk.line
  }

  predicate ActorStuck(c: Conn) {
    c.actor.pc.Answering? && c.actor.pc.h.at == AtWait && WriterAlive(c) && Actor in c.bulk.line
  }

  /** Whenever someone stands in line, the writer can move: it polls, or its send ends one way or the other. */
  lemma {:induction false} NoDeadlock(cfg: Config, s: State)
    requires Reachable(cfg, s) && (SessionStuck(s.c) || ActorStuck(s.c))
    ensures s.c.writer.pc.Idle? ==> NextWriter(s, Poll).Some?
    ensures !s.c.writer.pc.Idle? ==> NextWriter(s, SendOk).Some? && NextWriter(s, SendFailed).Some?
  {
    hide Inv;
    ReachableOk(cfg, s);
    ControlHolds(cfg, s);
    assert s.c.bulk.Ok() && s.c.bulk.permits == 0;
    InputsHold(cfg, s);
  }

  lemma {:induction false} InputsHold(cfg: Config, s: State)
    requires Inv(cfg, s)
    ensures InputsOk(s.c)
  {
  }

  /** A sender that waits but no longer stands in line, session or busy actor, can go on by itself. */
  lemma {:induction false} OutOfLineMoves(cfg: Config, s: State)
    requires Reachable(cfg, s)
    ensures s.c.pc.Queueing? && s.c.pc.h.at == AtWait && !SessionStuck(s.c) ==>
              NextSession(cfg, s, QueueingStep(if WriterAlive(s.c) then UseSlot else FindClosed)).Some?
    ensures s.c.actor.pc.Answering? && s.c.actor.pc.h.at == AtWait && !ActorStuck(s.c) ==>
              NextActor(cfg, s, AnswerStep(if WriterAlive(s.c) then UseSlot else FindClosed)).Some?
  {
    hide Inv;
    ReachableOk(cfg, s);
    ControlHolds(cfg, s);
    hide StopActor;
  }

  // ----------------------------------------------------------- bounded blocking

  /** How many senders are served before the session. */
  function Position(c: Conn): nat {
    if c.bulk.line != [] && c.bulk.line[0] == Session then 0 else 1
  }

  function Writing(c: Conn): nat {
    if c.writer.pc.Idle? then 0 else 1
  }

  /** How many sends have to end before the session gets its slot. */
  function SendsAhead(c: Conn): nat {
    Writing(c) + |c.writer.control| + Position(c)
  }

  predicate EndsSend(e: Event) {
    e == Own(WriterMoves(SendOk)) || e == Own(WriterMoves(SendFailed))
  }

  /** The most time the frame being written may take. */
  function FrameTimeout(cfg: Config, base: real, pc: WriterPc): real {
    match pc
    case WritingBulk(p) => BulkSendTimeout(base, cfg.jsonLen(p.now))
    case WritingControl(_) => base
    case _ => 0.0
  }

  /** The most time that can pass before the session gets its slot. */
  function TimeAhead(cfg: Config, base: real, c: Conn): real {
    FrameTimeout(cfg, base, c.writer.pc) + |c.writer.control| as real * base
        + Position(c) as real * Max(base, MAX_BULK_SEND_TIMEOUT)
  }

  /** What a stuck session can count on. */
  predicate StuckOk(c: Conn) {
    && SessionStuck(c)
    && |c.writer.control| <= CONTROL_QUEUE_CAPACITY
    && |c.bulk.line| <= 2 && (|c.bulk.line| == 2 ==> c.bulk.line[0] != c.bulk.line[1])
    && NoClose(c.writer.control) && !(c.writer.pc.WritingControl? && c.writer.pc.m.Close?)
    && (!c.writer.controlOpen ==> c.writer.control == []) && c.senders
    && c.bulk.permits == 0
  }

  lemma {:induction false} StuckHolds(cfg: Config, s: State)
    requires Inv(cfg, s) && SessionStuck(s.c)
    ensures StuckOk(s.c)
  {
    hide Inv;
    ControlHolds(cfg, s);
    InputsHold(cfg, s);
  }

  /** At most one frame in flight, 32 control messages and one response of the busy actor are ahead. */
  lemma {:induction false} AheadBounds(cfg: Config, base: real, s: State)
    requires Inv(cfg, s) && SessionStuck(s.c) && base >= 0.0
    ensures SendsAhead(s.c) <= 34
    ensures TimeAhead(cfg, base, s.c) <= 2.0 * Max(base, MAX_BULK_SEND_TIMEOUT) + 32.0 * base
  {
    hide Inv;
    hide Max;
    hide FrameTimeout;
    StuckHolds(cfg, s);
    FrameTimeoutBound(cfg, base, s.c.writer.pc);
    AddUp(FrameTimeout(cfg, base, s.c.writer.pc), |s.c.writer.control|, Position(s.c), base,
        Max(base, MAX_BULK_SEND_TIMEOUT));
  }

  lemma {:induction false} AddUp(first: real, n: nat, m: nat, base: real, top: real)
    requires first <= top && n <= 32 && m <= 1 && base >= 0.0 && top >= 0.0
    ensures first + n as real * base + m as real * top <= 2.0 * top + 32.0 * base
  {
    assert n as real * base <= 32.0 * base;
  }

  lemma {:induction false} FrameTimeoutBound(cfg: Config, base: real, pc: WriterPc)
    requires base >= 0.0
    ensures 0.0 <= FrameTimeout(cfg, base, pc) <= Max(base, MAX_BULK_SEND_TIMEOUT)
  {
    if pc.WritingBulk? {
      ScaledTimeoutBounds(base, 0, cfg.jsonLen(pc.p.now), MAX_BULK_SEND_TIMEOUT);
    }
  }

  /** The writer takes its next message or freed slot without adding to what is ahead. */
  lemma {:induction false} PollKeepsAhead(cfg: Config, base: real, s: State)
    requires StuckOk(s.c) && s.c.writer.pc.Idle? && NextWriter(s, Poll).Some? && base >= 0.0
    ensures var c' := NextWriter(s, Poll).value.c;
            SessionStuck(c') ==>
              (SendsAhead(c') <= SendsAhead(s.c) && TimeAhead(cfg, base, c') <= TimeAhead(cfg, base, s.c))
  {
    var c := s.c;
    var c' := NextWriter(s, Poll).value.c;
    FrameTimeoutBound(cfg, base, c'.writer.pc);
    hide BulkSendTimeout;
    hide Max;
    if SessionStuck(c') {
      PollMoves(s);
      hide NextWriter;
      hide SessionStuck;
      hide StuckOk;
      if c.writer.control != [] {
        assert (|c.writer.control| - 1) as real * base + base == |c.writer.control| as real * base;
      }
    }
  }

  /**
   What a poll does while the session is stuck before and after: it starts on a control message, or on the response
   of whoever was first in line.
   */
  lemma {:induction false} PollMoves(s: State)
    requires StuckOk(s.c) && s.c.writer.pc.Idle? && NextWriter(s, Poll).Some?
    requires SessionStuck(NextWriter(s, Poll).value.c)
    ensures var c, c' := s.c, NextWriter(s, Poll).value.c;
            if c.writer.control != [] then
              c'.writer.pc.WritingControl?
                && |c'.writer.control| == |c.writer.control| - 1 && Position(c') == Position(c)
            else
              c'.writer.pc.WritingBulk? && |c'.writer.control| == 0 && Position(c') == 0 && Position(c) == 1
  {
    var c := s.c;
    if c.writer.control == [] {
      assert c.bulk.line[0] != Session;
      assert c.bulk.line == [c.bulk.line[0]] + c.bulk.line[1..];
    }
    hide StopWriter;
  }

  lemma {:induction false} SendEndShrinksAhead(cfg: Config, base: real, s: State, st: WriterStep)
    requires StuckOk(s.c) && !st.Poll? && NextWriter(s, st).Some? && base >= 0.0
    ensures var c' := NextWriter(s, st).value.c;
            SessionStuck(c') ==>
              (st.SendOk? && SendsAhead(c') == SendsAhead(s.c) - 1
               && TimeAhead(cfg, base, c') == TimeAhead(cfg, base, s.c) - FrameTimeout(cfg, base, s.c.writer.pc))
  {
    hide BulkSendTimeout;
  }

  lemma {:induction false} ActorKeepsAhead(cfg: Config, base: real, s: State, st: ActorStep)
    requires StuckOk(s.c) && NextActor(cfg, s, st).Some?
    ensures var c' := NextActor(cfg, s, st).value.c;
            SessionStuck(c') ==>
              (SendsAhead(c') == SendsAhead(s.c) && TimeAhead(cfg, base, c') == TimeAhead(cfg, base, s.c))
  {
    hide QueueNext;
    hide BulkSendTimeout;
    hide StopActor;
    hide FrameTimeout;
    if st.AnswerStep? {
      QueueKeepsLine(cfg, s.used, s.c.bulk, WriterAlive(s.c), s.c.actor.pc.h, st.q);
    }
    StopLeavesBulk(s.c.actor, s.c.bulk);
  }

  lemma {:induction false} StopLeavesBulk(a: BusyActor, b: Bulk)
    ensures forall bulk, lost, used :: StopActor(a, bulk, lost, used).bulk == bulk
  {
  }

  /** Another sender can only get in line behind the session. */
  lemma {:induction false} QueueKeepsLine(cfg: Config, used: int, b: Bulk, open: bool, h: Hold, q: QueueStep)
    requires QueueNext(cfg, used, b, open, Actor, h, q).Some?
    ensures b.line <= QueueNext(cfg, used, b, open, Actor, h, q).value.bulk.line
  {
  }

  /** While the session is stuck nothing it does changes what is ahead: it does nothing at all. */
  lemma {:induction false} StuckSessionIdle(cfg: Config, s: State, st: SessionStep)
    requires StuckOk(s.c) && !s.c.bulk.HasSlot(Session)
    ensures NextSession(cfg, s, st) == None
  {
  }

  lemma {:induction false} EventKeepsAhead(cfg: Config, base: real, s: State, e: Event)
    requires Inv(cfg, s) && SessionStuck(s.c) && Happen(cfg, s, e).Some? && base >= 0.0
    requires SessionStuck(Happen(cfg, s, e).value.c)
    ensures var c' := Happen(cfg, s, e).value.c;
            && SendsAhead(c') + (if EndsSend(e) then 1 else 0) <= SendsAhead(s.c)
            && TimeAhead(cfg, base, c') + (if EndsSend(e) then FrameTimeout(cfg, base, s.c.writer.pc) else 0.0) <=
                 TimeAhead(cfg, base, s.c)
  {
    hide Inv;
    hide SendsAhead;
    hide TimeAhead;
    StuckHolds(cfg, s);
    match e {
      case Own(WriterMoves(st)) =>
        if st.Poll? {
          PollKeepsAhead(cfg, base, s);
        } else {
          SendEndShrinksAhead(cfg, base, s, st);
        }
      case Own(ActorMoves(st)) => ActorKeepsAhead(cfg, base, s, st);
      case Own(TaskMoves(st)) => TaskKeepsAhead(cfg, base, s, st);
      case Own(SessionMoves(st)) =>
        ControlHolds(cfg, s);
        StuckSessionIdle(cfg, s, st);
      case Others(_) => OthersKeepAhead(cfg, base, s.c);
    }
  }

  lemma {:induction false} TaskKeepsAhead(cfg: Config, base: real, s: State, st: TaskStep)
    requires NextTask(cfg, s, st).Some?
    ensures var c' := NextTask(cfg, s, st).value.c;
            SendsAhead(c') == SendsAhead(s.c) && TimeAhead(cfg, base, c') == TimeAhead(cfg, base, s.c)
  {
    hide TaskNext;
    hide BulkSendTimeout;
  }

  lemma {:induction false} OthersKeepAhead(cfg: Config, base: real, c: Conn)
    ensures SendsAhead(c) <= SendsAhead(c) && TimeAhead(cfg, base, c) <= TimeAhead(cfg, base, c)
  {
  }

  // ------------------------------------------------------------ blocking, over runs

  /** The session stands in line at the start, at the end and all the time between. */
  predicate StaysStuck(cfg: Config, s: State, events: seq<Event>)
    decreases |events|
  {
    && SessionStuck(s.c)
    && (events != [] ==>
          Happen(cfg, s, events[0]).Some? && StaysStuck(cfg, Happen(cfg, s, events[0]).value, events[1..]))
  }

  function SendEnds(events: seq<Event>): nat {
    if events == [] then 0 else (if EndsSend(events[0]) then 1 else 0) + SendEnds(events[1..])
  }

  predicate OfWriter(e: Event) {
    e.Own? && e.st.WriterMoves?
  }

  function WriterSteps(events: seq<Event>): nat {
    if events == [] then 0 else (if OfWriter(events[0]) then 1 else 0) + WriterSteps(events[1..])
  }

  /** The most time the sends that end during the run can have taken. */
  function SendTime(cfg: Config, base: real, s: State, events: seq<Event>): real
    decreases |events|
  {
    if events == [] || Happen(cfg, s, events[0]).None? then 0.0
    else
      (if EndsSend(events[0]) then FrameTimeout(cfg, base, s.c.writer.pc) else 0.0)
      + SendTime(cfg, base, Happen(cfg, s, events[0]).value, events[1..])
  }

  /** How many steps of the writer are left before the session gets its slot. */
  function WriterRank(c: Conn): nat {
    Writing(c) + 2 * |c.writer.control| + 2 * Position(c)
  }

  lemma {:induction false} WriterLowersRank(cfg: Config, s: State, e: Event)
    requires Inv(cfg, s) && SessionStuck(s.c) && Happen(cfg, s, e).Some?
    requires SessionStuck(Happen(cfg, s, e).value.c)
    ensures WriterRank(Happen(cfg, s, e).value.c) + (if OfWriter(e) then 1 else 0) <= WriterRank(s.c)
  {
    hide Inv;
    StuckHolds(cfg, s);
    match e {
      case Own(WriterMoves(st)) => WriterStepLowersRank(s, st);
      case Own(ActorMoves(st)) => ActorKeepsAhead(cfg, 0.0, s, st);
      case Own(TaskMoves(st)) => TaskKeepsAhead(cfg, 0.0, s, st);
      case Own(SessionMoves(st)) =>
        ControlHolds(cfg, s);
        StuckSessionIdle(cfg, s, st);
      case Others(_) =>
    }
  }

  lemma {:induction false} WriterStepLowersRank(s: State, st: WriterStep)
    requires StuckOk(s.c) && NextWriter(s, st).Some? && SessionStuck(NextWriter(s, st).value.c)
    ensures WriterRank(NextWriter(s, st).value.c) + 1 <= WriterRank(s.c)
  {
  }

  lemma {:induction false} StuckRunBounds(cfg: Config, base: real, s: State, events: seq<Event>)
    requires Inv(cfg, s) && StaysStuck(cfg, s, events) && base >= 0.0
    ensures Run(cfg, s, events).Some?
    ensures SendEnds(events) <= SendsAhead(s.c) && WriterSteps(events) <= WriterRank(s.c)
    ensures SendTime(cfg, base, s, events) + TimeAhead(cfg, base, Run(cfg, s, events).value.c) <=
              TimeAhead(cfg, base, s.c)
    decreases |events|
  {
    hide Inv;
    hide Happen;
    hide SessionStuck;
    hide FrameTimeout;
    hide SendsAhead;
    hide WriterRank;
    hide TimeAhead;
    if events != [] {
      EventKeepsAhead(cfg, base, s, events[0]);
      WriterLowersRank(cfg, s, events[0]);
      EventKeepsInv(cfg, s, events[0]);
      StuckRunBounds(cfg, base, Happen(cfg, s, events[0]).value, events[1..]);
    }
  }

  lemma {:induction false} FrameIsAhead(cfg: Config, base: real, c: Conn)
    requires base >= 0.0
    ensures 0.0 <= FrameTimeout(cfg, base, c.writer.pc) <= TimeAhead(cfg, base, c)
  {
    FrameTimeoutBound(cfg, base, c.writer.pc);
    hide FrameTimeout;
    assert |c.writer.control| as real * base >= 0.0;
  }

  /** The most time the run can have lasted: the sends that ended in it, and the one still in flight at its end. */
  function WaitTime(cfg: Config, base: real, s: State, events: seq<Event>): real
    requires Run(cfg, s, events).Some?
  {
    SendTime(cfg, base, s, events) + FrameTimeout(cfg, base, Run(cfg, s, events).value.c.writer.pc)
  }

  /**
   Bounded blocking: while the session waits for the bulk queue the writer ends at most 34 sends and takes at
   most 67 steps, and the wait lasts at most 2 * max(base, 45 s) + 32 * base, whatever everybody else does.
   */
  lemma {:induction false} BoundedBlocking(cfg: Config, base: real, s: State, events: seq<Event>)
    requires Reachable(cfg, s) && StaysStuck(cfg, s, events) && base >= 0.0
    ensures SendEnds(events) <= 34 && WriterSteps(events) <= 67
    ensures Run(cfg, s, events).Some?
    ensures WaitTime(cfg, base, s, events) <= 2.0 * Max(base, MAX_BULK_SEND_TIMEOUT) + 32.0 * base
  {
    hide Inv;
    hide TimeAhead;
    hide FrameTimeout;
    hide SendTime;
    hide Run;
    hide Max;
    ReachableOk(cfg, s);
    StuckRunBounds(cfg, base, s, events);
    AheadBounds(cfg, base, s);
    FrameIsAhead(cfg, base, Run(cfg, s, events).value.c);
    StuckHolds(cfg, s);
  }

  /** The step of a writer whose sends succeed. */
  function Writes(c: Conn): Step {
    WriterMoves(if c.writer.pc.Idle? then Poll else SendOk)
  }

  /** The writer alone gets a stuck session out of the line, in at most 67 steps and one; then the session can go on. */
  lemma {:induction false} WriterUnblocks(cfg: Config, s: State) returns (steps: seq<Step>)
    requires Reachable(cfg, s) && SessionStuck(s.c)
    ensures |steps| <= WriterRank(s.c) + 1 <= 68
    ensures forall i :: 0 <= i < |steps| ==> steps[i] == WriterMoves(Poll) || steps[i] == WriterMoves(SendOk)
    ensures Run(cfg, s, OwnEvents(steps)).Some?
    ensures var s' := Run(cfg, s, OwnEvents(steps)).value;
            s'.c.pc == s.c.pc && NextSession(cfg, s',
                QueueingStep(if WriterAlive(s'.c) then UseSlot else FindClosed)).Some?
    decreases WriterRank(s.c)
  {
    hide Inv;
    hide Run;
    var st := Writes(s.c);
    ReachableOk(cfg, s);
    StuckHolds(cfg, s);
    NoDeadlock(cfg, s);
    var s' := Next(cfg, s, st).value;
    assert s'.c.pc == s.c.pc;
    ReachableStep(cfg, s, st);
    OneOwnStep(cfg, s, st, []);
    hide NextSession;
    if SessionStuck(s'.c) {
      WriterStepLowersRank(s, st.w);
      var rest := WriterUnblocks(cfg, s');
      OneOwnStep(cfg, s, st, rest);
      steps := [st] + rest;
    } else {
      OutOfLineMoves(cfg, s');
      steps := [st];
    }
  }

  // ------------------------------------------------------------- the busy actor

  /** How many sends have to end before the busy actor gets its slot, if nothing more is queued for the writer. */
  function ActorAhead(c: Conn): nat {
    Writing(c) + |c.writer.control| + (if c.bulk.line != [] && c.bulk.line[0] == Actor then 0 else 1)
  }

  /** The session only appends: to the control queue, and to the line in front of the bulk queue. */
  predicate OnlyAppends(c: Conn, c': Conn) {
    && c'.writer.pc == c.writer.pc && c'.actor.pc == c.actor.pc
    && |c'.writer.control| - |c.writer.control| == |c'.writer.queued| - |c.writer.queued| >= 0
    && c.bulk.line <= c'.bulk.line
  }

  lemma {:induction false} SessionOnlyAppends(cfg: Config, s: State, st: SessionStep)
    requires NextSession(cfg, s, st).Some?
    ensures OnlyAppends(s.c, NextSession(cfg, s, st).value.c)
  {
    hide SelectNext;
    hide JoinNext;
    hide QueueNext;
    hide AfterQueueing;
    hide OnlyAppends;
    match s.c.pc {
      case Select => SelectOnlyAppends(cfg, s, st);
      case Joining(out) => JoinOnlyAppends(s, out, st.panicked);
      case Queueing(h) => QueueingOnlyAppends(cfg, s, st.q);
      case _ => TeardownOnlyAppends(cfg, s, st);
    }
  }

  lemma {:induction false} SayOnlyAppends(c: Conn, m: Control)
    ensures OnlyAppends(c, Say(c, m))
  {
  }

  lemma {:induction false} SelectOnlyAppends(cfg: Config, s: State, st: SessionStep)
    requires SelectNext(cfg, s, st).Some?
    ensures OnlyAppends(s.c, SelectNext(cfg, s, st).value.c)
  {
    SayOnlyAppends(s.c, PingText);
    SayOnlyAppends(Say(s.c, PingText), PingFrame);
    SayOnlyAppends(s.c, PongText);
    SayOnlyAppends(s.c, PongFrame);
    if st.ReadReady? {
      SayOnlyAppends(s.c, ReadyAnswer(st.uid));
    }
    hide TryControl;
  }

  lemma {:induction false} JoinOnlyAppends(s: State, out: Option<Parcel>, panicked: bool)
    requires JoinNext(s, out, panicked).Some?
    ensures OnlyAppends(s.c, JoinNext(s, out, panicked).value.c)
  {
  }

  lemma {:induction false} QueueingOnlyAppends(cfg: Config, s: State, q: QueueStep)
    requires s.c.pc.Queueing? && QueueNext(cfg, s.used, s.c.bulk, WriterAlive(s.c), Session, s.c.pc.h, q).Some?
    ensures OnlyAppends(s.c,
                AfterQueueing(s, QueueNext(cfg, s.used, s.c.bulk, WriterAlive(s.c), Session, s.c.pc.h, q).value).c)
  {
    assert s.c.bulk.line <= QueueNext(cfg, s.used, s.c.bulk, WriterAlive(s.c), Session, s.c.pc.h, q).value.bulk.line;
    hide QueueNext;
  }

  lemma {:induction false} TeardownOnlyAppends(cfg: Config, s: State, st: SessionStep)
    requires RunOver(s.c.pc) && NextSession(cfg, s, st).Some?
    ensures OnlyAppends(s.c, NextSession(cfg, s, st).value.c)
  {
    if s.c.pc.AbortingTask? && s.c.pc.farewell.Some? {
      SayOnlyAppends(s.c.(task := None, active := false), s.c.pc.farewell.value);
    }
    hide TryControl;
    hide SelectNext;
    hide QueueNext;
    hide JoinNext;
    hide AfterQueueing;
  }

  lemma {:induction false} EventKeepsActorAhead(cfg: Config, s: State, e: Event)
    requires Inv(cfg, s) && ActorStuck(s.c) && Happen(cfg, s, e).Some? && ActorStuck(Happen(cfg, s, e).value.c)
    ensures var c' := Happen(cfg, s, e).value.c;
            |s.c.writer.queued| <= |c'.writer.queued|
            && ActorAhead(c') + (if EndsSend(e) then 1 else 0) <=
                 ActorAhead(s.c) + |c'.writer.queued| - |s.c.writer.queued|
  {
    hide Inv;
    hide ActorAhead;
    hide ActorStuck;
    ControlHolds(cfg, s);
    InputsHold(cfg, s);
    match e {
      case Own(WriterMoves(st)) =>
        hide NextWriter;
        WriterKeepsActorAhead(s, st);
      case Own(ActorMoves(st)) => StuckActorIdle(cfg, s, st);
      case Own(TaskMoves(st)) => TaskKeepsActorAhead(cfg, s, st);
      case Own(SessionMoves(st)) =>
        hide NextSession;
        SessionOnlyAppends(cfg, s, st);
        AppendingKeepsActorAhead(s.c, NextSession(cfg, s, st).value.c);
      case Others(_) =>
    }
  }

  lemma {:induction false} TaskKeepsActorAhead(cfg: Config, s: State, st: TaskStep)
    requires NextTask(cfg, s, st).Some?
    ensures var c' := NextTask(cfg, s, st).value.c; ActorAhead(c') == ActorAhead(s.c) && c'.writer == s.c.writer
  {
    hide TaskNext;
  }

  lemma {:induction false} AppendingKeepsActorAhead(c: Conn, c': Conn)
    requires OnlyAppends(c, c') && ActorStuck(c) && |c.writer.queued| <= |c'.writer.queued|
    ensures ActorAhead(c') == ActorAhead(c) + |c'.writer.queued| - |c.writer.queued|
  {
  }

  lemma {:induction false} StuckActorIdle(cfg: Config, s: State, st: ActorStep)
    requires ControlOk(s.c) && ActorStuck(s.c)
    ensures NextActor(cfg, s, st) == None
  {
  }

  lemma {:induction false} WriterKeepsActorAhead(s: State, st: WriterStep)
    requires ControlOk(s.c) && InputsOk(s.c) && ActorStuck(s.c) && NextWriter(s, st).Some?
    requires ActorStuck(NextWriter(s, st).value.c)
    ensures var c' := NextWriter(s, st).value.c;
            && c'.writer.queued == s.c.writer.queued
            && ActorAhead(c') + (if st.SendOk? || st.SendFailed? then 1 else 0) <= ActorAhead(s.c)
  {
    assert s.c.bulk.Ok();
    if st.Poll? && s.c.bulk.queue != [] {
      var line := s.c.bulk.line;
      assert line == [line[0]] + line[1..];
    }
  }

  /** The busy actor stands in line at the start, at the end and all the time between. */
  predicate ActorStaysStuck(cfg: Config, s: State, events: seq<Event>)
    decreases |events|
  {
    && ActorStuck(s.c)
    && (events != [] ==>
          Happen(cfg, s, events[0]).Some? && ActorStaysStuck(cfg, Happen(cfg, s, events[0]).value, events[1..]))
  }

  lemma {:induction false} ActorRunBounds(cfg: Config, s: State, events: seq<Event>)
    requires Inv(cfg, s) && ActorStaysStuck(cfg, s, events)
    ensures Run(cfg, s, events).Some?
    ensures SendEnds(events) <= ActorAhead(s.c) + |Run(cfg, s, events).value.c.writer.queued| - |s.c.writer.queued|
    decreases |events|
  {
    hide Inv;
    hide Happen;
    hide ActorStuck;
    hide ActorAhead;
    if events != [] {
      EventKeepsActorAhead(cfg, s, events[0]);
      EventKeepsInv(cfg, s, events[0]);
      ActorRunBounds(cfg, Happen(cfg, s, events[0]).value, events[1..]);
    }
  }

  /**
   The busy actor has no bound of its own, because control messages that arrive later overtake it: it waits for at
   most 34 sends plus one for every control message queued meanwhile.
   */
  lemma {:induction false} ActorBlocking(cfg: Config, s: State, events: seq<Event>)
    requires Reachable(cfg, s) && ActorStaysStuck(cfg, s, events)
    ensures Run(cfg, s, events).Some?
    ensures SendEnds(events) <= 34 + |Run(cfg, s, events).value.c.writer.queued| - |s.c.writer.queued|
  {
    hide Inv;
    ReachableOk(cfg, s);
    ActorRunBounds(cfg, s, events);
    ControlHolds(cfg, s);
    hide Run;
  }

  function Mine(st: SessionStep): Event {
    Own(SessionMoves(st))
  }

  /** The server pings and the writer answers, `n` times. */
  function PingRounds(n: nat): (r: seq<Event>)
    ensures |r| == 3 * n
  {
    if n == 0 then [] else [Mine(ReadPingFrame), Own(WriterMoves(Poll)), Own(WriterMoves(SendOk))] + PingRounds(n - 1)
  }

  /** Any number of pings can be answered first: the bulk queue does not move and the actor stays where it is. */
  lemma {:induction false} PingsOvertake(cfg: Config, s: State, n: nat)
    requires s.c.pc.Select? && ActorStuck(s.c)
    requires s.c.writer.pc.Idle? && s.c.writer.control == [] && s.c.writer.controlOpen
    ensures ActorStaysStuck(cfg, s, PingRounds(n))
    ensures SendEnds(PingRounds(n)) == n
    decreases n
  {
    hide ActorStuck;
    hide Happen;
    hide SendEnds;
    if n == 0 {
      assert SendEnds([]) == 0 by {
        NoSends();
      }
    } else {
      PingRound(cfg, s);
      var e := [Mine(ReadPingFrame), Own(WriterMoves(Poll)), Own(WriterMoves(SendOk))];
      var s1 := Happen(cfg, s, e[0]).value;
      var s2 := Happen(cfg, s1, e[1]).value;
      var s3 := Happen(cfg, s2, e[2]).value;
      PingsOvertake(cfg, s3, n - 1);
      ThreeMore(cfg, s, s1, s2, s3, e, PingRounds(n - 1));
      hide PingRounds;
      OneSend(e, PingRounds(n - 1));
    }
  }

  lemma {:induction false} NoSends()
    ensures SendEnds([]) == 0
  {
  }

  lemma {:induction false} OneSend(e: seq<Event>, rest: seq<Event>)
    requires e == [Mine(ReadPingFrame), Own(WriterMoves(Poll)), Own(WriterMoves(SendOk))]
    ensures SendEnds(e + rest) == 1 + SendEnds(rest)
  {
    var all := e + rest;
    assert all[1..][1..][1..] == rest;
    assert SendEnds(all[1..][1..]) == 1 + SendEnds(rest);
    assert SendEnds(all[1..]) == 1 + SendEnds(rest);
  }

  lemma {:induction false} ThreeMore(
      cfg: Config, s: State, s1: State, s2: State, s3: State, e: seq<Event>, rest: seq<Event>)
    requires |e| == 3 && ActorStuck(s.c) && ActorStuck(s1.c) && ActorStuck(s2.c)
    requires Happen(cfg, s, e[0]) == Some(s1) && Happen(cfg, s1, e[1]) == Some(s2) && Happen(cfg, s2, e[2]) == Some(s3)
    requires ActorStaysStuck(cfg, s3, rest)
    ensures ActorStaysStuck(cfg, s, e + rest)
  {
    hide Happen;
    hide ActorStuck;
    var all := e + rest;
    assert all[1..][1..][1..] == rest;
    assert ActorStaysStuck(cfg, s2, all[1..][1..]);
    assert ActorStaysStuck(cfg, s1, all[1..]);
  }

  lemma {:induction false} PingRound(cfg: Config, s: State)
    requires s.c.pc.Select? && ActorStuck(s.c)
    requires s.c.writer.pc.Idle? && s.c.writer.control == [] && s.c.writer.controlOpen
    ensures Happen(cfg, s, Mine(ReadPingFrame)).Some?
    ensures var s1 := Happen(cfg, s, Mine(ReadPingFrame)).value;
            ActorStuck(s1.c) && Happen(cfg, s1, Own(WriterMoves(Poll))).Some?
            && var s2 := Happen(cfg, s1, Own(WriterMoves(Poll))).value;
            ActorStuck(s2.c) && Happen(cfg, s2, Own(WriterMoves(SendOk))).Some?
            && var s3 := Happen(cfg, s2, Own(WriterMoves(SendOk))).value;
            && s3.c.pc.Select? && ActorStuck(s3.c) && s3.c.bulk == s.c.bulk
            && s3.c.writer.pc.Idle? && s3.c.writer.control == [] && s3.c.writer.controlOpen
  {
  }
}
