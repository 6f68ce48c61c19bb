/** Reading does wait for network writes: exactly when, and a run in which it happens. */
module ConnectionWaiting {
  import opened Options
  import opened Bytes
  import opened Protocol
  import opened Parcels
  import opened BulkQueue
  import opened ScrapeTask
  import opened BusyAnswers
  import opened WriterLoop
  import opened Connection
  import opened ConnectionInvariant
  import opened ConnectionBooks
  import opened ConnectionControl
  import opened WriterTrace
  import opened ConnectionRuns
  import opened ConnectionProgress

  predicate ReadsFrame(st: SessionStep) {
    || st.ReadEnd? || st.ReadClose? || st.ReadPingText? || st.ReadPingFrame?
    || st.ReadIgnored? || st.ReadReady? || st.ReadRequest?
  }

  /**
   A session that has a response to queue starts to wait exactly when the bulk queue has no free slot, and then reads
   nothing.
   */
  lemma {:induction false} WaitsExactlyWhenFull(cfg: Config, s: State)
    requires Reachable(cfg, s) && s.c.pc.Queueing? && s.c.pc.h.at == AtSend && WriterAlive(s.c)
    ensures NextSession(cfg, s, QueueingStep(Send)).Some?
    ensures var s' := NextSession(cfg, s, QueueingStep(Send)).value;
            && (SessionStuck(s'.c) <==> s.c.bulk.permits == 0)
            && (!SessionStuck(s'.c) <==> s'.c.pc.Select?)
            && (SessionStuck(s'.c) ==> forall st :: ReadsFrame(st) ==> NextSession(cfg, s', st) == None)
  {
  }

  /** A busy request that is answered over the WebSocket, up to the bulk queue. */
  function BusyRequest(cfg: Config): seq<Event> {
    [Mine(ReadRequest([], 0)), Mine(QueueingStep(ReserveJson)),
     Mine(QueueingStep(Serialize(cfg.jsonLen(ResourceResponse([], 503, []))))), Mine(QueueingStep(Send))]
  }

  lemma {:induction false} RunFour(cfg: Config, s: State, e: seq<Event>, s1: State, s2: State, s3: State)
    requires |e| == 4
    requires Happen(cfg, s, e[0]) == Some(s1) && Happen(cfg, s1, e[1]) == Some(s2) && Happen(cfg, s2, e[2]) == Some(s3)
    ensures Run(cfg, s, e) == Happen(cfg, s3, e[3])
  {
    hide Happen;
    var e3 := e[1..][1..][1..];
    assert e3[0] == e[3] && e3[1..] == [];
    assert Run(cfg, s3, e3) == Happen(cfg, s3, e[3]);
    assert e[1..][1..][0] == e[2] && e[1..][0] == e[1];
    assert Run(cfg, s2, e[1..][1..]) == Run(cfg, s3, e3);
  }

  /** Busy answers go over the WebSocket: on the older wires, and on wire 3 when the actor's queue is full. */
  predicate ByWebSocket(cfg: Config, c: Conn) {
    cfg.protocol != 3 || |c.actor.queue| >= BUSY_RESPONSE_QUEUE_CAPACITY
  }

  /** The session is idle with a scrape active, and `n` more small answers fit in the budget. */
  predicate CanFill(cfg: Config, s: State, n: nat) {
    && ByWebSocket(cfg, s.c) && s.c.pc.Select? && s.c.active && WriterAlive(s.c) && s.c.bulk.line == []
    && !s.c.bulk.sessionHasSlot
    && cfg.jsonLen(ResourceResponse([], 503, [])) <= MAX_WS_MESSAGE_SIZE
    && s.used + n * cfg.jsonLen(ResourceResponse([], 503, [])) <= cfg.limit
  }

  lemma {:induction false} FillOne(cfg: Config, s: State)
    requires CanFill(cfg, s, 1)
    ensures Run(cfg, s, BusyRequest(cfg)).Some?
    ensures var s' := Run(cfg, s, BusyRequest(cfg)).value;
            && s'.used == s.used + cfg.jsonLen(ResourceResponse([], 503, [])) && s'.c.writer == s.c.writer
            && s'.c.active && s'.c.senders == s.c.senders
            && s'.c.actor == s.c.actor
            && (s.c.bulk.permits == 0 ==> SessionStuck(s'.c))
            && (s.c.bulk.permits > 0 ==> s'.c.pc.Select? && s'.c.bulk.line == [] && !s'.c.bulk.sessionHasSlot
                                         && s'.c.bulk.permits == s.c.bulk.permits - 1 && s'.c.bulk.queue != [])
  {
    var e := BusyRequest(cfg);
    var p := NewBusy(s.c.next, [], 0);
    var q := WithJsonReservation(cfg, p);
    var c1 := s.c.(next := s.c.next + 1, pc := Queueing(StartQueueing(p)));
    var s1, s2 := State(c1, s.used), State(c1.(pc := Queueing(Hold(q, AtSerialize))), s.used + q.extra);
    var s3 := State(c1.(pc := Queueing(Hold(WithJson(q, q.extra), AtSend))), s.used + q.extra);
    FillReceive(cfg, s);
    FillEncode(cfg, s1, p);
    hide NextSession;
    RunFour(cfg, s, e, s1, s2, s3);
    FillSend(cfg, s3);
  }

  lemma {:induction false} FillReceive(cfg: Config, s: State)
    requires CanFill(cfg, s, 0)
    ensures var c := s.c.(next := s.c.next + 1, pc := Queueing(StartQueueing(NewBusy(s.c.next, [], 0))));
            NextSession(cfg, s, ReadRequest([], 0)) == Some(State(c, s.used))
  {
  }

  lemma {:induction false} FillEncode(cfg: Config, s: State, p: Parcel)
    requires s.c.pc == Queueing(StartQueueing(p)) && p.held == 0 && cfg.jsonLen(p.now) <= MAX_WS_MESSAGE_SIZE
    requires s.used + cfg.jsonLen(p.now) <= cfg.limit
    ensures var q := WithJsonReservation(cfg, p);
            var s2 := State(s.c.(pc := Queueing(Hold(q, AtSerialize))), s.used + q.extra);
            && NextSession(cfg, s, QueueingStep(ReserveJson)) == Some(s2)
            && NextSession(cfg, s2, QueueingStep(Serialize(q.extra)))
               == Some(State(s.c.(pc := Queueing(Hold(WithJson(q, q.extra), AtSend))), s.used + q.extra))
  {
  }

  lemma {:induction false} FillSend(cfg: Config, s: State)
    requires s.c.pc.Queueing? && s.c.pc.h.at == AtSend && WriterAlive(s.c) && s.c.bulk.line == []
    ensures NextSession(cfg, s, QueueingStep(Send)).Some?
    ensures var s' := NextSession(cfg, s, QueueingStep(Send)).value;
            && s'.used == s.used && s'.c.writer == s.c.writer && s'.c.active == s.c.active
            && s'.c.senders == s.c.senders
            && s'.c.actor == s.c.actor
            && (s.c.bulk.permits == 0 ==> SessionStuck(s'.c))
            && (s.c.bulk.permits > 0 ==> s'.c.pc.Select? && s'.c.bulk.line == []
                                         && s'.c.bulk.sessionHasSlot == s.c.bulk.sessionHasSlot
                                         && s'.c.bulk.permits == s.c.bulk.permits - 1 && s'.c.bulk.queue != [])
  {
  }

  /** Fills up the bulk queue and gets the session stuck. */
  lemma {:induction false} FillUp(cfg: Config, s: State) returns (events: seq<Event>)
    requires CanFill(cfg, s, s.c.bulk.permits + 1)
    ensures Run(cfg, s, events).Some? && SessionStuck(Run(cfg, s, events).value.c)
    ensures Run(cfg, s, events).value.c.writer == s.c.writer
    decreases s.c.bulk.permits
  {
    hide Run;
    FillOne(cfg, s);
    events := BusyRequest(cfg);
    if s.c.bulk.permits > 0 {
      var s' := Run(cfg, s, events).value;
      var rest := FillUp(cfg, s');
      RunConcat(cfg, s, events, rest);
      events := events + rest;
    }
  }

  /** On wire 3, busy requests the actor does not get to: they wait in its queue. */
  function Unattended(n: nat): seq<Event> {
    if n == 0 then [] else [Mine(ReadRequest([], 0))] + Unattended(n - 1)
  }

  lemma {:induction false} UnattendedOne(cfg: Config, s: State)
    requires cfg.protocol == 3 && s.c.pc.Select? && s.c.active && ActorAlive(s.c) && s.used <= cfg.limit
    requires |s.c.actor.queue| < BUSY_RESPONSE_QUEUE_CAPACITY
    ensures var c := s.c.(next := s.c.next + 1,
                actor := s.c.actor.(queue := s.c.actor.queue + [NewBusy(s.c.next, [], 0)]));
            Happen(cfg, s, Mine(ReadRequest([], 0))) == Some(State(c, s.used))
  {
  }

  lemma {:induction false} UnattendedRuns(cfg: Config, s: State, n: nat)
    requires cfg.protocol == 3 && s.c.pc.Select? && s.c.active && ActorAlive(s.c) && s.used <= cfg.limit
    requires |s.c.actor.queue| + n == BUSY_RESPONSE_QUEUE_CAPACITY
    ensures Run(cfg, s, Unattended(n)).Some?
    ensures var s' := Run(cfg, s, Unattended(n)).value;
            && |s'.c.actor.queue| == BUSY_RESPONSE_QUEUE_CAPACITY && s'.used == s.used
            && s'.c == s.c.(next := s'.c.next, actor := s'.c.actor)
    decreases n
  {
    hide Happen;
    if n > 0 {
      UnattendedOne(cfg, s);
      var s1 := Happen(cfg, s, Mine(ReadRequest([], 0))).value;
      UnattendedRuns(cfg, s1, n - 1);
      assert Unattended(n)[1..] == Unattended(n - 1);
    }
  }

  /** The register message is sent, a scrape started, and on wire 3 the actor's queue is full. */
  function Opening(cfg: Config): seq<Event> {
    [Own(WriterMoves(Poll)), Own(WriterMoves(SendOk)), Mine(ReadRequest([], 0))]
        + Unattended(if cfg.protocol == 3 then 8 else 0)
  }

  lemma {:induction false} OpeningRuns(cfg: Config, used0: int)
    requires 0 <= used0 <= cfg.limit
    ensures Run(cfg, State(INIT, used0), Opening(cfg)).Some?
    ensures var s := Run(cfg, State(INIT, used0), Opening(cfg)).value;
            && s.used == used0 && s.c.pc.Select? && s.c.active && s.c.bulk == EMPTY && s.c.senders
            && ByWebSocket(cfg, s.c)
            && s.c.writer.pc.Idle? && s.c.writer.control == [] && s.c.writer.bulkOpen
  {
    var s0 := State(INIT, used0);
    var first := [Own(WriterMoves(Poll)), Own(WriterMoves(SendOk)), Mine(ReadRequest([], 0))];
    StartsUp(cfg, s0, first);
    StartLeavesActor(cfg, s0, first);
    var s1 := Run(cfg, s0, first).value;
    if cfg.protocol == 3 {
      hide Run;
      UnattendedRuns(cfg, s1, 8);
      RunConcat(cfg, s0, first, Unattended(8));
    } else {
      assert first + Unattended(0) == first;
      hide Run;
    }
  }

  /** A busy answer is queued and the writer starts on it. */
  lemma {:induction false} FirstUpload(cfg: Config, s3: State)
    requires ByWebSocket(cfg, s3.c) && s3.c.pc.Select? && s3.c.active && s3.c.bulk == EMPTY && s3.c.senders
    requires cfg.jsonLen(ResourceResponse([], 503, [])) <= MAX_WS_MESSAGE_SIZE
    requires s3.used + 10 * cfg.jsonLen(ResourceResponse([], 503, [])) <= cfg.limit
    requires s3.c.writer.pc.Idle? && s3.c.writer.control == [] && s3.c.writer.bulkOpen
    ensures Run(cfg, s3, BusyRequest(cfg) + [Own(WriterMoves(Poll))]).Some?
    ensures var s := Run(cfg, s3, BusyRequest(cfg) + [Own(WriterMoves(Poll))]).value;
            s.c.writer.pc.WritingBulk? && CanFill(cfg, s, s.c.bulk.permits + 1)
  {
    hide Run;
    hide BusyRequest;
    FillOne(cfg, s3);
    var s4 := Run(cfg, s3, BusyRequest(cfg)).value;
    RunConcat(cfg, s3, BusyRequest(cfg), [Own(WriterMoves(Poll))]);
    RunOne(cfg, s4, Own(WriterMoves(Poll)));
    hide NextWriter;
    PollTakesBulk(s4);
  }

  /** With nothing to say, the writer starts on the oldest response. */
  lemma {:induction false} PollTakesBulk(s: State)
    requires s.c.writer.pc.Idle? && s.c.writer.control == [] && s.c.senders
    requires s.c.writer.bulkOpen && s.c.bulk.queue != [] && s.c.bulk.line == []
    ensures NextWriter(s, Poll).Some?
    ensures var s' := NextWriter(s, Poll).value;
            && s'.c == s.c.(writer := TakeBulk(s.c.writer, s.c.bulk.queue[0]), bulk := s.c.bulk.Pop())
            && s'.c.bulk.permits == s.c.bulk.permits + 1 && s'.used == s.used && s'.c.writer.pc.WritingBulk?
            && s'.c.bulk.line == [] && s'.c.bulk.sessionHasSlot == s.c.bulk.sessionHasSlot
  {
    assert s.c.done + [] == s.c.done;
  }

  lemma {:induction false} StartsUp(cfg: Config, s0: State, first: seq<Event>)
    requires s0.c == INIT && first == [Own(WriterMoves(Poll)), Own(WriterMoves(SendOk)), Mine(ReadRequest([], 0))]
    ensures Run(cfg, s0, first).Some?
    ensures var s := Run(cfg, s0, first).value;
            && s.used == s0.used && s.c.pc.Select? && s.c.active && s.c.bulk == EMPTY
            && s.c.writer.pc.Idle? && s.c.writer.control == [] && s.c.writer.controlOpen && s.c.writer.bulkOpen
            && s.c.senders
  {
    var s1 := Happen(cfg, s0, first[0]).value;
    var s2 := Happen(cfg, s1, first[1]).value;
    assert s1.c.writer.control == [] && s1.c.writer.pc == WritingControl(Register);
    var s3 := Happen(cfg, s2, first[2]).value;
    assert first[1..] == [first[1], first[2]];
    assert first[1..][1..] == [first[2]];
    RunOne(cfg, s2, first[2]);
    hide Happen;
    assert Run(cfg, s1, first[1..]) == Run(cfg, s2, first[1..][1..]);
  }

  /**
   Reading can wait for a network write: a response is being uploaded, the bulk queue is full, and the session
   waits for the writer without reading anything.
   */
  lemma {:induction false} ReadingCanWaitForUpload(cfg: Config, used0: int) returns (s: State)
    requires 0 <= used0 && cfg.jsonLen(ResourceResponse([], 503, [])) <= MAX_WS_MESSAGE_SIZE
    requires used0 + 10 * cfg.jsonLen(ResourceResponse([], 503, [])) <= cfg.limit
    ensures Reachable(cfg, s) && s.c.writer.pc.WritingBulk? && SessionStuck(s.c)
    ensures forall st :: NextSession(cfg, s, st) == None
  {
    hide Run;
    hide Inv;
    hide SessionStuck;
    hide CanFill;
    hide NextSession;
    OpeningRuns(cfg, used0);
    var s0 := State(INIT, used0);
    var s1 := Run(cfg, s0, Opening(cfg)).value;
    var upload := BusyRequest(cfg) + [Own(WriterMoves(Poll))];
    FirstUpload(cfg, s1);
    var s2 := Run(cfg, s1, upload).value;
    var rest := FillUp(cfg, s2);
    RunConcat(cfg, s1, upload, rest);
    RunConcat(cfg, s0, Opening(cfg), upload + rest);
    s := Run(cfg, s2, rest).value;
    assert Run(cfg, s0, Opening(cfg) + (upload + rest)) == Some(s);
    ReachableOk(cfg, s);
    ControlHolds(cfg, s);
    StuckHolds(cfg, s);
    StuckHasNoSlot(s.c);
    forall st ensures NextSession(cfg, s, st) == None {
      StuckSessionIdle(cfg, s, st);
    }
  }

  lemma {:induction false} StuckHasNoSlot(c: Conn)
    requires ControlOk(c) && SessionStuck(c)
    ensures !c.bulk.HasSlot(Session)
  {
  }

  lemma {:induction false} SmallAnswerLength()
    ensures |EncodeResponse(ResourceResponse([], 503, []))| == 51
  {
    EncodedParts(ResourceResponse([], 503, []));
  }

  /** With the deployed encoder, 510 free bytes of budget are enough for reading to wait, on every wire. */
  lemma {:induction false} DeployedReadingCanWait(protocol: nat, limit: nat, used0: int) returns (s: State)
    requires 0 <= used0 && used0 + 510 <= limit
    ensures Reachable(Deployed(protocol, limit), s) && s.c.writer.pc.WritingBulk? && SessionStuck(s.c)
  {
    SmallAnswerLength();
    hide EncodeResponse;
    hide Reachable;
    s := ReadingCanWaitForUpload(Deployed(protocol, limit), used0);
  }

  // ------------------------------------------------ the busy actor can be starved

  /** The posts of a busy request on wire 3 fail at once and its answer goes to the bulk queue. */
  function FailedBusyRequest(cfg: Config): seq<Step> {
    var r := ResourceResponse([], 503, []);
    [SessionMoves(ReadRequest([], 0))] + ([ActorMoves(TakeBusy)] + ([ActorMoves(PrepareBusy(0, cfg.formLen(r)))]
    + ([ActorMoves(BusyFailed(0, false))] + ([ActorMoves(AnswerStep(ReserveJson))]
    + ([ActorMoves(AnswerStep(Serialize(cfg.jsonLen(r))))] + ([ActorMoves(AnswerStep(Send))] + []))))))
  }

  const IDLE_ACTOR: BusyActor := BusyActor([], true, [], Serving)

  /** Session and actor are idle, a scrape is active, and `n` more small answers fit, each next to its form. */
  predicate CanFillActor(cfg: Config, s: State, n: nat) {
    var r := ResourceResponse([], 503, []);
    && cfg.protocol == 3 && s.c.pc.Select? && s.c.active && WriterAlive(s.c) && s.c.bulk.line == []
    && !s.c.bulk.actorHasSlot
    && s.c.actor == IDLE_ACTOR
    && cfg.jsonLen(r) <= MAX_WS_MESSAGE_SIZE
    && s.used + cfg.formLen(r) + n * cfg.jsonLen(r) <= cfg.limit
  }

  lemma {:induction false} PostStarts(cfg: Config, s: State)
    requires CanFillActor(cfg, s, 1)
    ensures var p := NewBusy(s.c.next, [], 0);
            var s1 := State(s.c.(next := s.c.next + 1, actor := IDLE_ACTOR.(queue := [p])), s.used);
            var s2 := State(s1.c.(actor := IDLE_ACTOR.(posts := [p])), s.used);
            && Next(cfg, s, SessionMoves(ReadRequest([], 0))) == Some(s1)
            && Next(cfg, s1, ActorMoves(TakeBusy)) == Some(s2)
  {
    var p := NewBusy(s.c.next, [], 0);
    assert [] + [p] == [p] && [p][1..] == [];
    assert s.c.done + [] == s.c.done && s.c.posted + [] == s.c.posted;
  }

  lemma {:induction false} PostFails(cfg: Config, s: State, p: Parcel)
    requires s.c.actor == IDLE_ACTOR.(posts := [p]) && p.stage.Answered? && s.used + cfg.formLen(p.now) <= cfg.limit
    ensures var f := cfg.formLen(p.now);
            var s1 := State(
                s.c.(actor := IDLE_ACTOR.(posts := [AttemptPost(p, f)]), posted := s.c.posted + [KeyOf(p)]),
                s.used + f);
            var q := FailPost(AttemptPost(p, f), false);
            var s2 := State(s1.c.(actor := IDLE_ACTOR.(pc := Answering(StartQueueing(q)))), s.used);
            && Next(cfg, s, ActorMoves(PrepareBusy(0, f))) == Some(s1)
            && Next(cfg, s1, ActorMoves(BusyFailed(0, false))) == Some(s2)
  {
    var f := cfg.formLen(p.now);
    assert [p][0 := AttemptPost(p, f)] == [AttemptPost(p, f)];
    assert RemoveAt([AttemptPost(p, f)], 0) == [];
    assert s.c.done + [] == s.c.done && (s.c.posted + [KeyOf(p)]) + [] == s.c.posted + [KeyOf(p)];
  }

  lemma {:induction false} AnswerEncodes(cfg: Config, s: State, p: Parcel)
    requires s.c.actor == IDLE_ACTOR.(pc := Answering(StartQueueing(p))) && p.held == 0
    requires cfg.jsonLen(p.now) <= MAX_WS_MESSAGE_SIZE && s.used + cfg.jsonLen(p.now) <= cfg.limit
    ensures var q := WithJsonReservation(cfg, p);
            var s1 := State(s.c.(actor := IDLE_ACTOR.(pc := Answering(Hold(q, AtSerialize)))), s.used + q.extra);
            var s2 := State(
                s.c.(actor := IDLE_ACTOR.(pc := Answering(Hold(WithJson(q, q.extra), AtSend)))), s.used + q.extra);
            && Next(cfg, s, ActorMoves(AnswerStep(ReserveJson))) == Some(s1)
            && Next(cfg, s1, ActorMoves(AnswerStep(Serialize(q.extra)))) == Some(s2)
  {
    assert s.c.done + [] == s.c.done && s.c.posted + [] == s.c.posted;
  }

  lemma {:induction false} AnswerSent(cfg: Config, s: State)
    requires s.c.actor.pc.Answering? && s.c.actor.pc.h.at == AtSend && s.c.actor.(pc := Serving) == IDLE_ACTOR
    requires WriterAlive(s.c) && s.c.bulk.line == []
    ensures Next(cfg, s, ActorMoves(AnswerStep(Send))).Some?
    ensures var s' := Next(cfg, s, ActorMoves(AnswerStep(Send))).value;
            && s'.used == s.used && s'.c.pc == s.c.pc && s'.c.writer == s.c.writer && s'.c.active == s.c.active
            && (s.c.bulk.permits == 0 ==> ActorStuck(s'.c))
            && (s.c.bulk.permits > 0 ==> s'.c.actor == IDLE_ACTOR && s'.c.bulk.line == []
                                         && s'.c.bulk.actorHasSlot == s.c.bulk.actorHasSlot
                                         && s'.c.bulk.permits == s.c.bulk.permits - 1)
  {
  }

  lemma {:induction false} FillActorOne(cfg: Config, s: State)
    requires CanFillActor(cfg, s, 1)
    ensures Run(cfg, s, OwnEvents(FailedBusyRequest(cfg))).Some?
    ensures var s' := Run(cfg, s, OwnEvents(FailedBusyRequest(cfg))).value;
            && s'.used == s.used + cfg.jsonLen(ResourceResponse([], 503, [])) && s'.c.writer == s.c.writer
            && s'.c.pc.Select? && s'.c.active
            && (s.c.bulk.permits == 0 ==> ActorStuck(s'.c))
            && (s.c.bulk.permits > 0 ==> s'.c.actor == IDLE_ACTOR && s'.c.bulk.line == [] && !s'.c.bulk.actorHasSlot
                                         && s'.c.bulk.permits == s.c.bulk.permits - 1)
  {
    hide Next;
    hide FailedBusyRequest;
    hide ActorStuck;
    hide Run;
    var p := NewBusy(s.c.next, [], 0);
    var f := cfg.formLen(p.now);
    PostStarts(cfg, s);
    var s2 := State(s.c.(next := s.c.next + 1, actor := IDLE_ACTOR.(posts := [p])), s.used);
    PostFails(cfg, s2, p);
    var q := FailPost(AttemptPost(p, f), false);
    var s4 := State(s2.c.(actor := IDLE_ACTOR.(pc := Answering(StartQueueing(q))), posted := s.c.posted + [KeyOf(p)]),
        s.used);
    AnswerEncodes(cfg, s4, q);
    var e := WithJson(WithJsonReservation(cfg, q), cfg.jsonLen(q.now));
    var s6 := State(s4.c.(actor := IDLE_ACTOR.(pc := Answering(Hold(e, AtSend)))), s.used + cfg.jsonLen(q.now));
    AnswerSent(cfg, s6);
    SevenSteps(cfg, s, s2, s4, s6, f, cfg.jsonLen(p.now));
  }

  lemma {:induction false} SevenSteps(cfg: Config, s: State, s2: State, s4: State, s6: State, f: nat, n: nat)
    requires var r := ResourceResponse([], 503, []); f == cfg.formLen(r) && n == cfg.jsonLen(r)
    requires TwoSteps(cfg, s, SessionMoves(ReadRequest([], 0)), ActorMoves(TakeBusy), s2)
    requires TwoSteps(cfg, s2, ActorMoves(PrepareBusy(0, f)), ActorMoves(BusyFailed(0, false)), s4)
    requires TwoSteps(cfg, s4, ActorMoves(AnswerStep(ReserveJson)), ActorMoves(AnswerStep(Serialize(n))), s6)
    requires Next(cfg, s6, ActorMoves(AnswerStep(Send))).Some?
    ensures Run(cfg, s, OwnEvents(FailedBusyRequest(cfg))) == Next(cfg, s6, ActorMoves(AnswerStep(Send)))
  {
    hide Next;
    hide Run;
    var e6 := [ActorMoves(AnswerStep(Send))] + [];
    OneOwnStep(cfg, s6, ActorMoves(AnswerStep(Send)), []);
    var e4 := [ActorMoves(AnswerStep(ReserveJson))] + ([ActorMoves(AnswerStep(Serialize(n)))] + e6);
    TwoMore(cfg, s4, ActorMoves(AnswerStep(ReserveJson)), ActorMoves(AnswerStep(Serialize(n))), s6, e6);
    var e2 := [ActorMoves(PrepareBusy(0, f))] + ([ActorMoves(BusyFailed(0, false))] + e4);
    TwoMore(cfg, s2, ActorMoves(PrepareBusy(0, f)), ActorMoves(BusyFailed(0, false)), s4, e4);
    TwoMore(cfg, s, SessionMoves(ReadRequest([], 0)), ActorMoves(TakeBusy), s2, e2);
  }

  predicate TwoSteps(cfg: Config, s: State, a: Step, b: Step, s2: State) {
    Next(cfg, s, a).Some? && Next(cfg, Next(cfg, s, a).value, b) == Some(s2)
  }

  lemma {:induction false} TwoMore(cfg: Config, s: State, a: Step, b: Step, s2: State, rest: seq<Step>)
    requires TwoSteps(cfg, s, a, b, s2)
    ensures Run(cfg, s, OwnEvents([a] + ([b] + rest))) == Run(cfg, s2, OwnEvents(rest))
  {
    hide Next;
    hide Run;
    OneOwnStep(cfg, s, a, [b] + rest);
    OneOwnStep(cfg, Next(cfg, s, a).value, b, rest);
  }

  lemma {:induction false} FillUpActor(cfg: Config, s: State) returns (events: seq<Event>)
    requires CanFillActor(cfg, s, s.c.bulk.permits + 1)
    ensures Run(cfg, s, events).Some?
    ensures var s' := Run(cfg, s, events).value; ActorStuck(s'.c) && s'.c.pc.Select? && s'.c.writer == s.c.writer
    decreases s.c.bulk.permits
  {
    hide Run;
    hide FailedBusyRequest;
    hide ActorStuck;
    FillActorOne(cfg, s);
    events := OwnEvents(FailedBusyRequest(cfg));
    if s.c.bulk.permits > 0 {
      var s' := Run(cfg, s, events).value;
      var rest := FillUpActor(cfg, s');
      RunConcat(cfg, s, events, rest);
      events := events + rest;
    }
  }

  /**
   The busy actor can be kept waiting without end: there is a reachable state on wire 3 from which, for every n, the
   server can have n pings answered while the bulk queue stands still.
   */
  lemma {:induction false} PingsCanStarveBusyAnswers(cfg: Config, used0: int) returns (s: State)
    requires cfg.protocol == 3 && 0 <= used0
    requires cfg.jsonLen(ResourceResponse([], 503, [])) <= MAX_WS_MESSAGE_SIZE
    requires used0 + cfg.formLen(ResourceResponse([], 503, [])) + 9 * cfg.jsonLen(ResourceResponse([], 503, [])) <=
              cfg.limit
    ensures Reachable(cfg, s)
    ensures forall n: nat :: ActorStaysStuck(cfg, s, PingRounds(n)) && SendEnds(PingRounds(n)) == n
  {
    var s0 := State(INIT, used0);
    var first := [Own(WriterMoves(Poll)), Own(WriterMoves(SendOk)), Mine(ReadRequest([], 0))];
    StartsUp(cfg, s0, first);
    var s1 := Run(cfg, s0, first).value;
    StartLeavesActor(cfg, s0, first);
    hide Run;
    var rest := FillUpActor(cfg, s1);
    RunConcat(cfg, s0, first, rest);
    s := Run(cfg, s1, rest).value;
    assert Run(cfg, s0, first + rest) == Some(s);
    forall n: nat ensures ActorStaysStuck(cfg, s, PingRounds(n)) && SendEnds(PingRounds(n)) == n {
      PingsOvertake(cfg, s, n);
    }
  }

  lemma {:induction false} StartLeavesActor(cfg: Config, s0: State, first: seq<Event>)
    requires s0.c == INIT && first == [Own(WriterMoves(Poll)), Own(WriterMoves(SendOk)), Mine(ReadRequest([], 0))]
    requires Run(cfg, s0, first).Some?
    ensures Run(cfg, s0, first).value.c.actor == IDLE_ACTOR
  {
    var s1 := Happen(cfg, s0, first[0]).value;
    var s2 := Happen(cfg, s1, first[1]).value;
    assert first[1..] == [first[1], first[2]] && first[1..][1..] == [first[2]];
    RunOne(cfg, s2, first[2]);
    assert Happen(cfg, s2, first[2]).value.c.actor == IDLE_ACTOR;
    hide Happen;
    assert Run(cfg, s1, first[1..]) == Run(cfg, s2, first[1..][1..]);
  }
}
