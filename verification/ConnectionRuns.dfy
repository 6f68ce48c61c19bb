/**
 Runs of a connection, interleaved with whatever other workers do to the shared budget, and what every reachable state
 keeps.
 */
module ConnectionRuns {
  import opened Options
  import opened Bytes
  import opened Protocol
  import opened Parcels
  import opened BulkQueue
  import opened ScrapeTask
  import opened BusyAnswers
  import opened WriterLoop
  import opened Connection
  import opened ConnectionInvariant
  import opened ConnectionBooks
  import opened ConnectionControl
  import opened WriterTrace

  /** A step of this connection, or other users of the budget leaving it at `used` bytes. */
  datatype Event = Own(st: Step) | Others(used: int)

  function Happen(cfg: Config, s: State, e: Event): Option<State> {
    match e
    case Own(st) => Next(cfg, s, st)
    case Others(used) => if LiveTotal(Reserved, s.c) <= used <= cfg.limit then Some(State(s.c, used)) else None
  }

  function Run(cfg: Config, s: State, events: seq<Event>): Option<State>
    decreases |events|
  {
    if events == [] then Some(s)
    else
      var s' :- Happen(cfg, s, events[0]);
      Run(cfg, s', events[1..])
  }

  /** The state can be reached by a new connection that found `used0` bytes of the budget taken. */
  ghost predicate Reachable(cfg: Config, s: State) {
    exists used0: int, events :: 0 <= used0 <= cfg.limit && Run(cfg, State(INIT, used0), events) == Some(s)
  }

  // ------------------------------------------------------------------ invariant

  /** Wires 1 and 2 never post. */
  predicate WireOk(cfg: Config, c: Conn) {
    cfg.protocol != 3 ==>
      && c.posted == [] && c.actor.queue == [] && c.actor.posts == [] && !c.actor.pc.Answering?
      && !(c.task.Some? && (c.task.value.Delivering? || c.task.value.PostingTask?))
  }

  predicate LedgerOk(cfg: Config, s: State) {
    LiveTotal(Reserved, s.c) <= s.used <= cfg.limit
  }

  ghost predicate BooksOk(c: Conn) {
    forall m :: CountsRequests(m) ==> AllTotal(m, c) == LogTotal(m, c)
  }

  ghost predicate Inv(cfg: Config, s: State) {
    && ParcelsOk(cfg, s.c) && ControlOk(s.c) && TraceOk(s.c) && WireOk(cfg, s.c)
    && LedgerOk(cfg, s) && BooksOk(s.c)
  }

  lemma {:induction false} InitOk(cfg: Config, used0: int)
    requires 0 <= used0 <= cfg.limit
    ensures Inv(cfg, State(INIT, used0))
  {
    assert INIT.writer.queued == [Register] && INIT.writer.started == [];
    assert Controls([]) + [Register] == [Register];
    forall m | CountsRequests(m) ensures AllTotal(m, INIT) == LogTotal(m, INIT) {
    }
  }

  lemma {:induction false} TaskKeepsWire(cfg: Config, s: State, st: TaskStep)
    requires WireOk(cfg, s.c) && NextTask(cfg, s, st).Some?
    ensures WireOk(cfg, NextTask(cfg, s, st).value.c)
  {
    if cfg.protocol != 3 {
      OldWiresNeverPost(cfg, s.used, s.c.task.value, TaskView(s.c), st);
    }
    hide TaskNext;
  }

  lemma {:induction false} ActorKeepsWire(cfg: Config, s: State, st: ActorStep)
    requires WireOk(cfg, s.c) && NextActor(cfg, s, st).Some?
    ensures WireOk(cfg, NextActor(cfg, s, st).value.c)
  {
    hide QueueNext;
  }

  lemma {:induction false} SessionKeepsWire(cfg: Config, s: State, st: SessionStep)
    requires WireOk(cfg, s.c) && NextSession(cfg, s, st).Some?
    ensures WireOk(cfg, NextSession(cfg, s, st).value.c)
  {
    hide QueueNext;
    hide SelectNext;
    hide JoinNext;
    hide AfterQueueing;
    hide SayFarewell;
    match s.c.pc {
      case Select => SelectKeepsWire(cfg, s, st);
      case Joining(out) => JoinKeepsWire(cfg, s, out, st.panicked);
      case Queueing(h) =>
        AfterQueueingKeepsWire(cfg, s, QueueNext(cfg, s.used, s.c.bulk, WriterAlive(s.c), Session, h, st.q).value);
      case AbortingTask(farewell) => FarewellKeepsWire(cfg, s.c.(task := None, active := false), farewell);
      case _ =>
    }
  }

  lemma {:induction false} SelectKeepsWire(cfg: Config, s: State, st: SessionStep)
    requires WireOk(cfg, s.c) && SelectNext(cfg, s, st).Some?
    ensures WireOk(cfg, SelectNext(cfg, s, st).value.c)
  {
  }

  lemma {:induction false} JoinKeepsWire(cfg: Config, s: State, out: Option<Parcel>, panicked: bool)
    requires WireOk(cfg, s.c) && JoinNext(s, out, panicked).Some?
    ensures WireOk(cfg, JoinNext(s, out, panicked).value.c)
  {
  }

  lemma {:induction false} AfterQueueingKeepsWire(cfg: Config, s: State, r: QueueResult)
    requires WireOk(cfg, s.c)
    ensures WireOk(cfg, AfterQueueing(s, r).c)
  {
  }

  lemma {:induction false} FarewellKeepsWire(cfg: Config, c: Conn, farewell: Option<Control>)
    requires WireOk(cfg, c)
    ensures WireOk(cfg, SayFarewell(c, farewell))
  {
  }

  lemma {:induction false} StepKeepsWire(cfg: Config, s: State, st: Step)
    requires WireOk(cfg, s.c) && Next(cfg, s, st).Some?
    ensures WireOk(cfg, Next(cfg, s, st).value.c)
  {
    match st {
      case TaskMoves(t) => TaskKeepsWire(cfg, s, t);
      case ActorMoves(a) => ActorKeepsWire(cfg, s, a);
      case SessionMoves(m) => SessionKeepsWire(cfg, s, m);
      case WriterMoves(w) =>
        hide WriterNext;
    }
  }

  lemma {:induction false} StepKeepsBooks(m: Measure, cfg: Config, s: State, st: Step)
    requires ParcelsOk(cfg, s.c) && ControlOk(s.c) && Next(cfg, s, st).Some? && CountsRequests(m)
    ensures KeepsBooks(m, s.c, Next(cfg, s, st).value.c)
  {
    hide KeepsBooks;
    match st {
      case TaskMoves(t) =>
        TaskMovesKeepControl(cfg, s, t);
        TaskMovesKeepBooks(m, cfg, s, t);
      case WriterMoves(w) => WriterMovesKeepBooks(m, cfg, s, w);
      case ActorMoves(a) => ActorMovesKeepBooks(m, cfg, s, a);
      case SessionMoves(x) => SessionMovesKeepBooks(m, cfg, s, x);
    }
  }

  lemma {:induction false} StepKeepsLedger(cfg: Config, s: State, st: Step)
    requires ParcelsOk(cfg, s.c) && ControlOk(s.c) && Next(cfg, s, st).Some?
    ensures KeepsLedger(cfg, s, Next(cfg, s, st).value)
  {
    hide KeepsLedger;
    match st {
      case TaskMoves(t) =>
        TaskMovesKeepControl(cfg, s, t);
        TaskMovesKeepLedger(cfg, s, t);
      case WriterMoves(w) => WriterMovesKeepLedger(cfg, s, w);
      case ActorMoves(a) => ActorMovesKeepLedger(cfg, s, a);
      case SessionMoves(x) => SessionMovesKeepLedger(cfg, s, x);
    }
  }

  lemma {:induction false} StepKeepsShape(cfg: Config, s: State, st: Step)
    requires ParcelsOk(cfg, s.c) && ControlOk(s.c) && TraceOk(s.c) && Next(cfg, s, st).Some?
    ensures var c' := Next(cfg, s, st).value.c; ParcelsOk(cfg, c') && ControlOk(c') && TraceOk(c')
  {
    assert PhaseOk(s.c) && (!WriterAlive(s.c) ==> s.c.bulk.queue == []);
    hide ParcelsOk;
    hide ControlOk;
    hide TraceOk;
    match st {
      case TaskMoves(t) =>
        TaskMovesKeepParcels(cfg, s, t);
        TaskMovesKeepControl(cfg, s, t);
        TaskMovesKeepTrace(cfg, s, t);
      case WriterMoves(w) =>
        WriterMovesKeepParcels(cfg, s, w);
        WriterMovesKeepControl(s, w);
        WriterMovesKeepTrace(cfg, s, w);
      case ActorMoves(a) =>
        ActorMovesKeepParcels(cfg, s, a);
        ActorMovesKeepControl(cfg, s, a);
        ActorMovesKeepTrace(cfg, s, a);
      case SessionMoves(x) =>
        SessionMovesKeepParcels(cfg, s, x);
        SessionMovesKeepControl(cfg, s, x);
        SessionMovesKeepTrace(cfg, s, x);
    }
  }

  lemma {:induction false} StepKeepsInv(cfg: Config, s: State, st: Step)
    requires Inv(cfg, s) && Next(cfg, s, st).Some?
    ensures Inv(cfg, Next(cfg, s, st).value)
    ensures var s' := Next(cfg, s, st).value; s'.used - LiveTotal(Reserved, s'.c) == s.used - LiveTotal(Reserved, s.c)
  {
    var s' := Next(cfg, s, st).value;
    hide Next;
    hide ParcelsOk;
    hide ControlOk;
    hide TraceOk;
    hide WireOk;
    StepKeepsShape(cfg, s, st);
    StepKeepsWire(cfg, s, st);
    StepKeepsLedger(cfg, s, st);
    forall m | CountsRequests(m) ensures AllTotal(m, s'.c) == LogTotal(m, s'.c) {
      StepKeepsBooks(m, cfg, s, st);
    }
  }

  lemma {:induction false} EventKeepsInv(cfg: Config, s: State, e: Event)
    requires Inv(cfg, s) && Happen(cfg, s, e).Some?
    ensures Inv(cfg, Happen(cfg, s, e).value)
  {
    hide Inv;
    hide Next;
    match e {
      case Own(st) => StepKeepsInv(cfg, s, st);
      case Others(used) => OthersKeepInv(cfg, s, used);
    }
  }

  /** What others do to the budget, within its limit and beside what is reserved here. */
  lemma {:induction false} OthersKeepInv(cfg: Config, s: State, used: int)
    requires Inv(cfg, s) && LiveTotal(Reserved, s.c) <= used <= cfg.limit
    ensures Inv(cfg, State(s.c, used))
  {
    hide ParcelsOk;
    hide ControlOk;
    hide TraceOk;
    hide WireOk;
    hide BooksOk;
    hide LiveTotal;
  }

  lemma {:induction false} RunKeepsInv(cfg: Config, s: State, events: seq<Event>)
    requires Inv(cfg, s) && Run(cfg, s, events).Some?
    ensures Inv(cfg, Run(cfg, s, events).value)
    decreases |events|
  {
    hide Inv;
    hide Happen;
    if events != [] {
      EventKeepsInv(cfg, s, events[0]);
      RunKeepsInv(cfg, Happen(cfg, s, events[0]).value, events[1..]);
    }
  }

  lemma {:induction false} ReachableOk(cfg: Config, s: State)
    requires Reachable(cfg, s)
    ensures Inv(cfg, s)
  {
    var used0: int, events :| 0 <= used0 <= cfg.limit && Run(cfg, State(INIT, used0), events) == Some(s);
    hide Inv;
    InitOk(cfg, used0);
    RunKeepsInv(cfg, State(INIT, used0), events);
  }

  lemma {:induction false} BooksHold(cfg: Config, s: State, m: Measure)
    requires Inv(cfg, s) && CountsRequests(m)
    ensures AllTotal(m, s.c) == LogTotal(m, s.c)
  {
  }

  lemma {:induction false} ParcelsHold(cfg: Config, s: State)
    requires Inv(cfg, s)
    ensures ParcelsOk(cfg, s.c)
  {
  }

  lemma {:induction false} ControlHolds(cfg: Config, s: State)
    requires Inv(cfg, s)
    ensures ControlOk(s.c)
  {
  }

  // ---------------------------------------------------------------- putting runs together

  function OwnEvents(steps: seq<Step>): (r: seq<Event>)
    ensures |r| == |steps|
  {
    if steps == [] then [] else [Own(steps[0])] + OwnEvents(steps[1..])
  }

  lemma {:induction false} RunConcat(cfg: Config, s: State, a: seq<Event>, b: seq<Event>)
    requires Run(cfg, s, a).Some?
    ensures Run(cfg, s, a + b) == Run(cfg, Run(cfg, s, a).value, b)
    decreases |a|
  {
    hide Happen;
    if a == [] {
      assert a + b == b;
    } else {
      assert (a + b)[1..] == a[1..] + b;
      RunConcat(cfg, Happen(cfg, s, a[0]).value, a[1..], b);
    }
  }

  lemma {:induction false} RunOne(cfg: Config, s: State, e: Event)
    ensures Run(cfg, s, [e]) == Happen(cfg, s, e)
  {
    hide Happen;
    assert [e][1..] == [];
  }

  lemma {:induction false} StaysReachable(cfg: Config, s: State, events: seq<Event>)
    requires Reachable(cfg, s) && Run(cfg, s, events).Some?
    ensures Reachable(cfg, Run(cfg, s, events).value)
  {
    var used0: int, before :| 0 <= used0 <= cfg.limit && Run(cfg, State(INIT, used0), before) == Some(s);
    RunConcat(cfg, State(INIT, used0), before, events);
  }

  lemma {:induction false} ReachableStep(cfg: Config, s: State, st: Step)
    requires Reachable(cfg, s) && Next(cfg, s, st).Some?
    ensures Reachable(cfg, Next(cfg, s, st).value)
  {
    hide Next;
    RunOne(cfg, s, Own(st));
    StaysReachable(cfg, s, [Own(st)]);
  }

  lemma {:induction false} OneOwnStep(cfg: Config, s: State, st: Step, rest: seq<Step>)
    requires Next(cfg, s, st).Some?
    ensures Run(cfg, s, OwnEvents([st] + rest)) == Run(cfg, Next(cfg, s, st).value, OwnEvents(rest))
    ensures Run(cfg, Next(cfg, s, st).value, OwnEvents([])) == Some(Next(cfg, s, st).value)
    ensures [st] + [] == [st]
  {
    hide Next;
    assert ([st] + rest)[1..] == rest;
    assert OwnEvents([st] + rest)[1..] == OwnEvents(rest);
  }
}
