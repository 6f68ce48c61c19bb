/**
 When a request goes unanswered: exactly the steps at which a response is given up, and for what reason. While the
 session runs and the writer lives that happens only for lack of memory or after a large POST timed out.
 */
module ConnectionDelivery {
  import opened Options
  import opened Bytes
  import opened Protocol
  import opened Parcels
  import opened BulkQueue
  import opened ScrapeTask
  import opened BusyAnswers
  import opened WriterLoop
  import opened Connection
  import opened ConnectionInvariant
  import opened ConnectionControl
  import opened ConnectionRuns
  import opened ConnectionSafety
  import opened ConnectionEnd

  /** The reservations without which a response is given up. */
  datatype Purpose = UidOfBusyRequest | UidOfScrape | FallbackJson | JsonSlack

  datatype Ask = Ask(purpose: Purpose, need: nat)

  function QueueAsks(cfg: Config, h: Hold, q: QueueStep): Option<Ask> {
    match (h.at, q)
    case (AtFallback, ReserveFallback) =>
      if cfg.jsonLen(h.p.now) <= MAX_WS_MESSAGE_SIZE then Some(Ask(FallbackJson, cfg.jsonLen(h.p.now))) else None
    case (AtSerialize, Serialize(cap)) => if h.p.extra <= cap then Some(Ask(JsonSlack, cap - h.p.extra)) else None
    case _ => None
  }

  /** Which of them a step asks the budget for. */
  function Asks(cfg: Config, c: Conn, st: Step): Option<Ask> {
    match st
    case SessionMoves(ReadRequest(_, uidCap)) => if c.active then Some(Ask(UidOfBusyRequest, uidCap)) else None
    case SessionMoves(QueueingStep(q)) => if c.pc.Queueing? then QueueAsks(cfg, c.pc.h, q) else None
    case ActorMoves(AnswerStep(q)) => if c.actor.pc.Answering? then QueueAsks(cfg, c.actor.pc.h, q) else None
    case TaskMoves(ReserveUid(uidCap)) => Some(Ask(UidOfScrape, uidCap))
    case _ => None
  }

  /** The step asks for more than the budget has left. */
  predicate Refused(cfg: Config, s: State, st: Step) {
    Asks(cfg, s.c, st).Some? && s.used + Asks(cfg, s.c, st).value.need > cfg.limit
  }

  predicate QueueTooLong(cfg: Config, h: Hold, q: QueueStep) {
    h.at == AtFallback && q == ReserveFallback && cfg.jsonLen(h.p.now) > MAX_WS_MESSAGE_SIZE
  }

  /** Even the error response is over the message limit. */
  predicate TooLong(cfg: Config, c: Conn, st: Step) {
    match st
    case SessionMoves(QueueingStep(q)) => c.pc.Queueing? && QueueTooLong(cfg, c.pc.h, q)
    case ActorMoves(AnswerStep(q)) => c.actor.pc.Answering? && QueueTooLong(cfg, c.actor.pc.h, q)
    case _ => false
  }

  /** The POST of a scrape times out with more than 256 KiB of body. */
  predicate LateAndLarge(c: Conn, st: Step) {
    st == TaskMoves(PostFailed(true)) && c.task.Some? && c.task.value.PostingTask?
    && |c.task.value.p.now.body| > FALLBACK_AFTER_TIMEOUT_LIMIT
  }

  /** What met its fate between two states. */
  function Settled(c: Conn, c': Conn): seq<Parcel>
    requires |c.done| <= |c'.done|
  {
    c'.done[|c.done|..]
  }

  predicate Lost(q: seq<Parcel>, why: Why) {
    exists i :: 0 <= i < |q| && q[i].fate == Dropped(why)
  }

  predicate LostAny(q: seq<Parcel>) {
    exists i :: 0 <= i < |q| && q[i].fate.Dropped?
  }

  /** The three reasons for which the worker itself gives a response up, each exactly when its condition holds. */
  predicate ReasonsExact(cfg: Config, s: State, st: Step, q: seq<Parcel>) {
    && (Lost(q, MemoryRefused) <==> Refused(cfg, s, st))
    && (Lost(q, MetadataTooLarge) <==> TooLong(cfg, s.c, st))
    && (Lost(q, LargeAfterTimeout) <==> LateAndLarge(s.c, st))
  }

  lemma {:induction false} Appended(c: Conn, c': Conn, q: seq<Parcel>)
    requires c'.done == c.done + q
    ensures |c.done| <= |c'.done| && Settled(c, c') == q
  {
  }

  /** Dropped with the connection or its writer: not for one of the three reasons. */
  predicate OnlyEnded(q: seq<Parcel>) {
    forall i :: 0 <= i < |q| ==> q[i].fate in [Written, Dropped(ConnectionEnded), Dropped(WriterFailed)]
  }

  lemma {:induction false} OnlyEndedConcat(a: seq<Parcel>, b: seq<Parcel>)
    requires OnlyEnded(a) && OnlyEnded(b)
    ensures OnlyEnded(a + b)
  {
  }

  // ------------------------------------------------------------------ the steps

  lemma {:induction false} TaskReasons(cfg: Config, s: State, st: TaskStep)
    requires NextTask(cfg, s, st).Some?
    ensures var c' := NextTask(cfg, s, st).value.c;
            |s.c.done| <= |c'.done| && ReasonsExact(cfg, s, TaskMoves(st), Settled(s.c, c'))
  {
    var r := TaskNext(cfg, s.used, s.c.task.value, TaskView(s.c), st).value;
    Appended(s.c, NextTask(cfg, s, st).value.c, OptionSeq(r.lost));
    if r.lost.Some? {
      assert OptionSeq(r.lost)[0].fate.Dropped? || r.lost.value.fate == Accepted;
    }
  }

  lemma {:induction false} StopWriterEnded(w: Writer, bulk: Bulk, clean: bool, why: Why, lost: seq<Parcel>, used: int)
    requires OnlyEnded(lost) && (why == ConnectionEnded || why == WriterFailed)
    ensures OnlyEnded(StopWriter(w, bulk, clean, why, lost, used).lost)
  {
    OnlyEndedConcat(lost, DropAll(bulk.queue, why));
  }

  lemma {:induction false} WriterReasonsEnded(c: Conn, used: int, st: WriterStep)
    requires WriterNext(c.writer, c.bulk, ViewOfWriter(c), used, st).Some?
    ensures OnlyEnded(WriterNext(c.writer, c.bulk, ViewOfWriter(c), used, st).value.lost)
  {
    hide StopWriter;
    StopWriterEnded(c.writer, c.bulk, true, ConnectionEnded, [], used);
    StopWriterEnded(c.writer, c.bulk, false, ConnectionEnded, [], used);
    StopWriterEnded(c.writer, c.bulk, false, WriterFailed, [], used);
    if c.writer.pc.WritingBulk? {
      var p := c.writer.pc.p;
      StopWriterEnded(c.writer, c.bulk, false, ConnectionEnded, [Drop(p, ConnectionEnded)], used - p.extra);
      StopWriterEnded(c.writer, c.bulk, false, WriterFailed, [Drop(p, WriterFailed)], used - p.extra);
    }
  }

  lemma {:induction false} WriterMovesReasons(cfg: Config, s: State, st: WriterStep)
    requires NextWriter(s, st).Some?
    ensures var c' := NextWriter(s, st).value.c;
            |s.c.done| <= |c'.done| && ReasonsExact(cfg, s, WriterMoves(st), Settled(s.c, c'))
  {
    WriterReasonsEnded(s.c, s.used, st);
    var r := WriterNext(s.c.writer, s.c.bulk, ViewOfWriter(s.c), s.used, st).value;
    hide WriterNext;
    Appended(s.c, WithWriter(s.c, r), r.lost);
  }

  /** What `queue_ws_response` gives up, and why. */
  lemma {:induction false} QueueReasonsExact(
      cfg: Config, used: int, b: Bulk, open: bool, who: Who, h: Hold, q: QueueStep)
    requires QueueNext(cfg, used, b, open, who, h, q).Some?
    ensures var out := QueueNext(cfg, used, b, open, who, h, q).value.out;
            var asked := QueueAsks(cfg, h, q);
            && (out.GaveUp? && out.p.fate == Dropped(MemoryRefused) <==>
                  asked.Some? && used + asked.value.need > cfg.limit)
            && (out.GaveUp? && out.p.fate == Dropped(MetadataTooLarge) <==> QueueTooLong(cfg, h, q))
            && (out.GaveUp? ==> out.p.fate == Dropped(MemoryRefused) || out.p.fate == Dropped(MetadataTooLarge))
            && (out.Failed? ==> out.p.fate == Dropped(WriterFailed))
  {
  }

  lemma {:induction false} StopActorEnded(a: BusyActor, b: Bulk, lost: seq<Parcel>, used: int)
    requires OnlyEnded(lost)
    ensures OnlyEnded(StopActor(a, b, lost, used).lost)
  {
    OnlyEndedConcat(DropAll(a.queue, ConnectionEnded), DropAll(a.posts, ConnectionEnded));
    OnlyEndedConcat(lost, DropAll(a.queue, ConnectionEnded) + DropAll(a.posts, ConnectionEnded));
  }

  lemma {:induction false} AnswerReasons(cfg: Config, s: State, q: QueueStep)
    requires s.c.actor.pc.Answering? && NextActor(cfg, s, AnswerStep(q)).Some?
    ensures var r := ActorNext(cfg, s.used, s.c.actor, s.c.bulk, ViewOfActor(s.c), AnswerStep(q)).value;
            ReasonsExact(cfg, s, ActorMoves(AnswerStep(q)), r.lost)
  {
    var h := s.c.actor.pc.h;
    QueueReasonsExact(cfg, s.used, s.c.bulk, WriterAlive(s.c), Actor, h, q);
    var r := QueueNext(cfg, s.used, s.c.bulk, WriterAlive(s.c), Actor, h, q).value;
    hide QueueNext;
    hide QueueAsks;
    hide QueueTooLong;
    hide StopActor;
    if r.out.Failed? {
      StopActorEnded(s.c.actor, r.bulk, [r.out.p], r.used);
    } else if r.out.GaveUp? {
      assert [r.out.p][0] == r.out.p;
    }
  }

  lemma {:induction false} OtherActorReasons(cfg: Config, s: State, st: ActorStep)
    requires !st.AnswerStep? && NextActor(cfg, s, st).Some?
    ensures var r := ActorNext(cfg, s.used, s.c.actor, s.c.bulk, ViewOfActor(s.c), st).value;
            forall i :: 0 <= i < |r.lost| ==> r.lost[i].fate == Accepted || r.lost[i].fate == Dropped(ConnectionEnded)
  {
  }

  lemma {:induction false} ActorMovesReasons(cfg: Config, s: State, st: ActorStep)
    requires NextActor(cfg, s, st).Some?
    ensures var c' := NextActor(cfg, s, st).value.c;
            |s.c.done| <= |c'.done| && ReasonsExact(cfg, s, ActorMoves(st), Settled(s.c, c'))
  {
    var r := ActorNext(cfg, s.used, s.c.actor, s.c.bulk, ViewOfActor(s.c), st).value;
    if st.AnswerStep? {
      assert s.c.actor.pc.Answering?;
      AnswerReasons(cfg, s, st.q);
    } else {
      OtherActorReasons(cfg, s, st);
    }
    hide ActorNext;
    Appended(s.c, WithActor(s.c, r), r.lost);
  }

  lemma {:induction false} SelectReasons(cfg: Config, s: State, st: SessionStep)
    requires s.c.pc.Select? && SelectNext(cfg, s, st).Some?
    ensures var c' := SelectNext(cfg, s, st).value.c;
            |s.c.done| <= |c'.done| && ReasonsExact(cfg, s, SessionMoves(st), Settled(s.c, c'))
  {
    var c' := SelectNext(cfg, s, st).value.c;
    var q := c'.done[|s.c.done|..];
    if st.ReadRequest? && s.c.active && s.used + st.uidCap > cfg.limit {
      assert q == [Drop(NewBusy(s.c.next, st.uid, st.uidCap), MemoryRefused)];
      assert q[0].fate == Dropped(MemoryRefused);
    }
  }

  lemma {:induction false} JoinReasons(cfg: Config, s: State, out: Option<Parcel>, panicked: bool)
    requires s.c.pc == Joining(out) && JoinNext(s, out, panicked).Some?
    ensures var c' := JoinNext(s, out, panicked).value.c;
            |s.c.done| <= |c'.done| && OnlyEnded(Settled(s.c, c'))
  {
    hide Finish;
    if panicked {
      JoinSettles(s, out);
      EndedOption(out);
      EndedOption(SlotParcel(s.c.slot));
      OnlyEndedConcat(OptionSeq(DropOption(out, ConnectionEnded)),
          OptionSeq(DropOption(SlotParcel(s.c.slot), ConnectionEnded)));
      hide JoinNext;
    }
  }

  lemma {:induction false} EndedOption(o: Option<Parcel>)
    ensures OnlyEnded(OptionSeq(DropOption(o, ConnectionEnded)))
  {
  }

  lemma {:induction false} JoinSettles(s: State, out: Option<Parcel>)
    requires JoinNext(s, out, true).Some?
    ensures var c' := JoinNext(s, out, true).value.c;
            && |s.c.done| <= |c'.done|
            && Settled(s.c, c') == OptionSeq(DropOption(out, ConnectionEnded))
                + OptionSeq(DropOption(SlotParcel(s.c.slot), ConnectionEnded))
  {
    var a, b := OptionSeq(DropOption(out, ConnectionEnded)),
        OptionSeq(DropOption(SlotParcel(s.c.slot), ConnectionEnded));
    assert JoinNext(s, out, true).value.c.done == s.c.done + (a + b);
  }

  lemma {:induction false} QueueingReasons(cfg: Config, s: State, q: QueueStep)
    requires s.c.pc.Queueing? && QueueNext(cfg, s.used, s.c.bulk, WriterAlive(s.c), Session, s.c.pc.h, q).Some?
    ensures var c' := AfterQueueing(s,
                QueueNext(cfg, s.used, s.c.bulk, WriterAlive(s.c), Session, s.c.pc.h, q).value).c;
            |s.c.done| <= |c'.done| && ReasonsExact(cfg, s, SessionMoves(QueueingStep(q)), Settled(s.c, c'))
  {
    var h := s.c.pc.h;
    QueueReasonsExact(cfg, s.used, s.c.bulk, WriterAlive(s.c), Session, h, q);
    var r := QueueNext(cfg, s.used, s.c.bulk, WriterAlive(s.c), Session, h, q).value;
    hide QueueNext;
    hide QueueAsks;
    hide QueueTooLong;
    hide AfterQueueing;
    AfterQueueingSettles(s, r);
    if r.out.GaveUp? {
      assert [r.out.p][0] == r.out.p;
    }
  }

  lemma {:induction false} AfterQueueingSettles(s: State, r: QueueResult)
    requires s.c.pc.Queueing?
    ensures var c' := AfterQueueing(s, r).c;
            && |s.c.done| <= |c'.done|
            && Settled(s.c, c') == (if r.out.GaveUp? then [r.out.p]
                                    else if r.out.Failed? then
                                      [r.out.p] + OptionSeq(DropOption(SlotParcel(s.c.slot), ConnectionEnded))
                                    else [])
  {
    var c' := AfterQueueing(s, r).c;
    if r.out.Failed? {
      assert c'.done == s.c.done + ([r.out.p] + OptionSeq(DropOption(SlotParcel(s.c.slot), ConnectionEnded)));
    }
  }

  lemma {:induction false} SessionMovesReasons(cfg: Config, s: State, st: SessionStep)
    requires NextSession(cfg, s, st).Some?
    ensures var c' := NextSession(cfg, s, st).value.c;
            |s.c.done| <= |c'.done| && ReasonsExact(cfg, s, SessionMoves(st), Settled(s.c, c'))
  {
    hide SelectNext;
    hide JoinNext;
    hide QueueNext;
    hide AfterQueueing;
    match s.c.pc {
      case Select => SelectReasons(cfg, s, st);
      case Joining(out) => JoinReasons(cfg, s, out, st.panicked);
      case Queueing(h) => QueueingReasons(cfg, s, st.q);
      case _ =>
    }
  }

  /** At every step: a response is given up for one of the worker's own reasons exactly when that reason holds. */
  lemma {:induction false} StepReasons(cfg: Config, s: State, st: Step)
    requires Next(cfg, s, st).Some?
    ensures var c' := Next(cfg, s, st).value.c;
            |s.c.done| <= |c'.done| && ReasonsExact(cfg, s, st, Settled(s.c, c'))
  {
    hide ReasonsExact;
    match st {
      case TaskMoves(t) => TaskReasons(cfg, s, t);
      case WriterMoves(w) => WriterMovesReasons(cfg, s, w);
      case ActorMoves(a) => ActorMovesReasons(cfg, s, a);
      case SessionMoves(m) => SessionMovesReasons(cfg, s, m);
    }
  }

  // ----------------------------------------------------------------- deliveries

  /** Some response met this fate. */
  predicate Met(q: seq<Parcel>, fate: Fate) {
    exists i :: 0 <= i < |q| && q[i].fate == fate
  }

  predicate AllDropped(q: seq<Parcel>) {
    forall i :: 0 <= i < |q| ==> q[i].fate.Dropped?
  }

  /** The send of a response succeeds. */
  predicate ResponseSent(c: Conn, st: Step) {
    st == WriterMoves(SendOk) && c.writer.pc.WritingBulk?
  }

  /** A POST is accepted. */
  predicate PostTaken(st: Step) {
    st == TaskMoves(PostAccepted) || (st.ActorMoves? && st.a.BusyAccepted?)
  }

  lemma {:induction false} AllDroppedMeets(q: seq<Parcel>)
    requires AllDropped(q)
    ensures !Met(q, Written) && !Met(q, Accepted)
  {
  }

  lemma {:induction false} StoppedSettles(w: Writer, bulk: Bulk, clean: bool, why: Why, lost: seq<Parcel>, used: int)
    ensures var r := StopWriter(w, bulk, clean, why, lost, used);
            && r.w.pc == Stopped(clean) && r.bulk.queue == [] && |r.lost| == |lost| + |bulk.queue|
            && (forall i :: 0 <= i < |lost| ==> r.lost[i] == lost[i])
            && (forall i :: |lost| <= i < |r.lost| ==> r.lost[i].fate == Dropped(why))
  {
  }

  /**
   A response counts as written exactly when its send succeeded. A failed send, unless it was the close frame's, ends
   the writer, and everything it had or was about to write is dropped for that reason; the close frame's ends it cleanly
   either way.
   */
  lemma {:induction false} SendsDecide(s: State, st: WriterStep)
    requires NextWriter(s, st).Some?
    ensures var c, c' := s.c, NextWriter(s, st).value.c;
            var writing, closing := c.writer.pc.WritingBulk?, c.writer.pc.WritingControl? && c.writer.pc.m.Close?;
            && |c.done| <= |c'.done|
            && (st == SendOk && writing ==>
                  Settled(c, c') == [Finish(c.writer.pc.p, Written)] && c'.writer.pc == Idle && c'.bulk == c.bulk)
            && (!(st == SendOk && writing) ==> AllDropped(Settled(c, c')))
            && (st == SendOk && !writing && !closing ==>
                  c'.writer == c.writer.(pc := Idle) && c'.bulk == c.bulk)
            && ((st == SendOk || st == SendFailed) && closing ==> c'.writer.pc == Stopped(true) && c'.bulk.queue == [])
            && (st == SendFailed && !closing ==>
                  && c'.writer.pc == Stopped(false) && c'.bulk.queue == []
                  && |Settled(c, c')| == |c.bulk.queue| + (if writing then 1 else 0)
                  && forall i :: 0 <= i < |Settled(c, c')| ==> Settled(c, c')[i].fate == Dropped(WriterFailed))
  {
    hide StopWriter;
    var c := s.c;
    StoppedSettles(c.writer, c.bulk, true, ConnectionEnded, [], s.used);
    StoppedSettles(c.writer, c.bulk, false, ConnectionEnded, [], s.used);
    StoppedSettles(c.writer, c.bulk, false, WriterFailed, [], s.used);
    if c.writer.pc.WritingBulk? {
      var p := c.writer.pc.p;
      StoppedSettles(c.writer, c.bulk, false, ConnectionEnded, [Drop(p, ConnectionEnded)], s.used - p.extra);
      StoppedSettles(c.writer, c.bulk, false, WriterFailed, [Drop(p, WriterFailed)], s.used - p.extra);
    }
    Appended(c, NextWriter(s, st).value.c, WriterNext(c.writer, c.bulk, ViewOfWriter(c), s.used, st).value.lost);
  }

  lemma {:induction false} TaskDelivers(cfg: Config, s: State, st: TaskStep)
    requires NextTask(cfg, s, st).Some?
    ensures var c' := NextTask(cfg, s, st).value.c;
            && |s.c.done| <= |c'.done|
            && (if st == PostAccepted then
                  s.c.task.value.PostingTask? && Settled(s.c, c') == [Finish(s.c.task.value.p, Accepted)]
                else AllDropped(Settled(s.c, c')))
  {
    Appended(s.c, NextTask(cfg, s, st).value.c,
        OptionSeq(TaskNext(cfg, s.used, s.c.task.value, TaskView(s.c), st).value.lost));
  }

  lemma {:induction false} StopActorDrops(a: BusyActor, b: Bulk, lost: seq<Parcel>, used: int)
    requires AllDropped(lost)
    ensures AllDropped(StopActor(a, b, lost, used).lost)
  {
  }

  lemma {:induction false} ActorDelivers(cfg: Config, s: State, st: ActorStep)
    requires NextActor(cfg, s, st).Some?
    ensures var c' := NextActor(cfg, s, st).value.c;
            && |s.c.done| <= |c'.done|
            && (if st.BusyAccepted? then
                  st.i < |s.c.actor.posts| && Settled(s.c, c') == [Finish(s.c.actor.posts[st.i], Accepted)]
                else AllDropped(Settled(s.c, c')))
  {
    var a, r := s.c.actor, ActorNext(cfg, s.used, s.c.actor, s.c.bulk, ViewOfActor(s.c), st).value;
    hide StopActor;
    StopActorDrops(a, s.c.bulk, [], s.used);
    if a.pc.Answering? {
      var h := a.pc.h;
      StopActorDrops(a, s.c.bulk, [Drop(h.p, ConnectionEnded)], s.used - h.p.held - h.p.extra);
      if st.AnswerStep? {
        QueueReasonsExact(cfg, s.used, s.c.bulk, WriterAlive(s.c), Actor, h, st.q);
        var q := QueueNext(cfg, s.used, s.c.bulk, WriterAlive(s.c), Actor, h, st.q).value;
        hide QueueNext;
        if q.out.Failed? {
          StopActorDrops(a, q.bulk, [q.out.p], q.used);
        }
      }
    }
    Appended(s.c, WithActor(s.c, r), r.lost);
  }

  lemma {:induction false} SelectDrops(cfg: Config, s: State, st: SessionStep)
    requires SelectNext(cfg, s, st).Some?
    ensures var c' := SelectNext(cfg, s, st).value.c; |s.c.done| <= |c'.done| && AllDropped(Settled(s.c, c'))
  {
  }

  lemma {:induction false} JoinDrops(s: State, out: Option<Parcel>, panicked: bool)
    requires JoinNext(s, out, panicked).Some?
    ensures var c' := JoinNext(s, out, panicked).value.c; |s.c.done| <= |c'.done| && AllDropped(Settled(s.c, c'))
  {
  }

  lemma {:induction false} SessionDelivers(cfg: Config, s: State, st: SessionStep)
    requires NextSession(cfg, s, st).Some?
    ensures var c' := NextSession(cfg, s, st).value.c; |s.c.done| <= |c'.done| && AllDropped(Settled(s.c, c'))
  {
    hide QueueNext;
    hide SelectNext;
    hide JoinNext;
    hide AfterQueueing;
    match s.c.pc {
      case Select => SelectDrops(cfg, s, st);
      case Joining(out) => JoinDrops(s, out, st.panicked);
      case Queueing(h) =>
        QueueReasonsExact(cfg, s.used, s.c.bulk, WriterAlive(s.c), Session, h, st.q);
        AfterQueueingSettles(s, QueueNext(cfg, s.used, s.c.bulk, WriterAlive(s.c), Session, h, st.q).value);
      case _ =>
    }
  }

  /** A response is delivered exactly at a step at which its send succeeds or its POST is accepted. */
  lemma {:induction false} DeliveredExactlyWhen(cfg: Config, s: State, st: Step)
    requires Next(cfg, s, st).Some?
    ensures var c' := Next(cfg, s, st).value.c;
            && |s.c.done| <= |c'.done|
            && (Met(Settled(s.c, c'), Written) <==> ResponseSent(s.c, st))
            && (Met(Settled(s.c, c'), Accepted) <==> PostTaken(st))
  {
    var c' := Next(cfg, s, st).value.c;
    hide AllDropped;
    hide TaskNext;
    hide ActorNext;
    hide WriterNext;
    hide NextSession;
    hide Settled;
    match st {
      case TaskMoves(t) => TaskDelivers(cfg, s, t);
      case WriterMoves(w) => SendsDecide(s, w);
      case ActorMoves(a) => ActorDelivers(cfg, s, a);
      case SessionMoves(m) => SessionDelivers(cfg, s, m);
    }
    var q := Settled(s.c, c');
    if ResponseSent(s.c, st) {
      assert q[0].fate == Written && |q| == 1;
    } else if PostTaken(st) {
      assert q[0].fate == Accepted && |q| == 1;
    } else {
      AllDroppedMeets(q);
    }
  }

  // ---------------------------------------------------------------- the theorems

  /**
   While the session runs and the writer lives, a request goes unanswered exactly at a step that is refused memory for
   its uid, for the JSON of its error response or for the slack of its JSON, that finds even the error response over
   the message limit, or at which its POST times out with more than 256 KiB of body.
   */
  lemma {:induction false} UnansweredExactlyWhen(cfg: Config, s: State, st: Step)
    requires Reachable(cfg, s) && Next(cfg, s, st).Some?
    requires !RunOver(Next(cfg, s, st).value.c.pc) && WriterAlive(Next(cfg, s, st).value.c)
    ensures var c' := Next(cfg, s, st).value.c;
            && |s.c.done| <= |c'.done|
            && (LostAny(Settled(s.c, c')) <==> Refused(cfg, s, st) || TooLong(cfg, s.c, st) || LateAndLarge(s.c, st))
  {
    hide Next;
    hide Reachable;
    hide Refused;
    hide TooLong;
    hide LateAndLarge;
    hide FateOk;
    StepReasons(cfg, s, st);
    ReachableStep(cfg, s, st);
    var s' := Next(cfg, s, st).value;
    var q := Settled(s.c, s'.c);
    forall i | 0 <= i < |q| && q[i].fate.Dropped?
      ensures q[i].fate.why != ConnectionEnded && q[i].fate.why != WriterFailed
    {
      assert q[i] == s'.c.done[|s.c.done| + i];
      FatesMatchHistory(cfg, s', q[i]);
    }
    LostForAReason(q);
  }

  lemma {:induction false} LostForAReason(q: seq<Parcel>)
    requires forall i :: 0 <= i < |q| && q[i].fate.Dropped? ==>
              q[i].fate.why != ConnectionEnded && q[i].fate.why != WriterFailed
    ensures LostAny(q) <==> Lost(q, MemoryRefused) || Lost(q, MetadataTooLarge) || Lost(q, LargeAfterTimeout)
  {
    if LostAny(q) {
      var i :| 0 <= i < |q| && q[i].fate.Dropped?;
      assert Lost(q, q[i].fate.why);
    }
  }

  /** With the deployed encoder and limit the error response always fits. */
  lemma {:induction false} MetadataAlwaysFits(protocol: nat, limit: nat, s: State, st: Step)
    requires Reachable(Deployed(protocol, limit), s)
    ensures !TooLong(Deployed(protocol, limit), s.c, st)
  {
    hide Inv;
    var cfg := Deployed(protocol, limit);
    ReachableOk(cfg, s);
    ParcelsHold(cfg, s);
    hide EncodeResponse;
    if s.c.pc.Queueing? {
      FallbackLength(s.c.pc.h.p.orig.uid);
    }
    if s.c.actor.pc.Answering? {
      FallbackLength(s.c.actor.pc.h.p.orig.uid);
    }
  }

  /** As deployed, only memory and a large POST that timed out leave a request unanswered. */
  lemma {:induction false} DeployedUnansweredExactlyWhen(protocol: nat, limit: nat, s: State, st: Step)
    requires Reachable(Deployed(protocol, limit), s) && Next(Deployed(protocol, limit), s, st).Some?
    requires var s' := Next(Deployed(protocol, limit), s, st).value; !RunOver(s'.c.pc) && WriterAlive(s'.c)
    ensures var c' := Next(Deployed(protocol, limit), s, st).value.c;
            && |s.c.done| <= |c'.done|
            && (LostAny(Settled(s.c, c')) <==> Refused(Deployed(protocol, limit), s, st) || LateAndLarge(s.c, st))
  {
    hide Next;
    hide Reachable;
    hide Refused;
    hide TooLong;
    UnansweredExactlyWhen(Deployed(protocol, limit), s, st);
    MetadataAlwaysFits(protocol, limit, s, st);
  }

  /** Whatever was dropped for want of memory was dropped at a step of the run that the budget refused. */
  lemma {:induction false} RefusedOnTheWay(cfg: Config, s: State, events: seq<Event>, p: Parcel) returns (k: nat)
    requires Run(cfg, s, events).Some? && p in Run(cfg, s, events).value.c.done && p !in s.c.done
    requires p.fate == Dropped(MemoryRefused)
    ensures k < |events| && Run(cfg, s, events[..k]).Some? && events[k].Own?
    ensures p !in Run(cfg, s, events[..k]).value.c.done
    ensures Refused(cfg, Run(cfg, s, events[..k]).value, events[k].st)
    ensures Happen(cfg, Run(cfg, s, events[..k]).value, events[k]).Some?
    ensures p in Happen(cfg, Run(cfg, s, events[..k]).value, events[k]).value.c.done
    decreases |events|
  {
    hide Refused;
    hide Next;
    var s' := Happen(cfg, s, events[0]).value;
    if p in s'.c.done {
      k := 0;
      assert events[..0] == [];
      NewlyRefused(cfg, s, events[0].st, p);
    } else {
      k := RefusedOnTheWay(cfg, s', events[1..], p);
      assert events[..k + 1][1..] == events[1..][..k];
      assert Run(cfg, s, events[..k + 1]) == Run(cfg, s', events[1..][..k]);
      k := k + 1;
    }
  }

  lemma {:induction false} NewlyLost(cfg: Config, s: State, st: Step, p: Parcel)
    requires Next(cfg, s, st).Some? && p in Next(cfg, s, st).value.c.done && p !in s.c.done && p.fate.Dropped?
    ensures var c' := Next(cfg, s, st).value.c; |s.c.done| <= |c'.done| && Lost(Settled(s.c, c'), p.fate.why)
  {
    hide Next;
    StepAppends(cfg, s, st);
    var c' := Next(cfg, s, st).value.c;
    var i :| 0 <= i < |c'.done| && c'.done[i] == p;
    assert s.c.done == c'.done[..|s.c.done|];
    assert Settled(s.c, c')[i - |s.c.done|] == p;
  }

  lemma {:induction false} NewlyRefused(cfg: Config, s: State, st: Step, p: Parcel)
    requires Next(cfg, s, st).Some? && p in Next(cfg, s, st).value.c.done && p !in s.c.done
    ensures p.fate == Dropped(MemoryRefused) ==> Refused(cfg, s, st)
    ensures p.fate == Dropped(MetadataTooLarge) ==> TooLong(cfg, s.c, st)
  {
    hide Next;
    hide Refused;
    hide TooLong;
    hide LateAndLarge;
    hide Lost;
    hide Settled;
    StepReasons(cfg, s, st);
    if p.fate.Dropped? {
      NewlyLost(cfg, s, st, p);
    }
  }

  lemma {:induction false} StepAppends(cfg: Config, s: State, st: Step)
    requires Next(cfg, s, st).Some?
    ensures s.c.done <= Next(cfg, s, st).value.c.done
  {
    hide TaskNext;
    hide ActorNext;
    hide WriterNext;
    match st {
      case SessionMoves(m) => SessionAppends(cfg, s, m);
      case _ =>
        hide NextSession;
    }
  }

  lemma {:induction false} SessionAppends(cfg: Config, s: State, st: SessionStep)
    requires NextSession(cfg, s, st).Some?
    ensures s.c.done <= NextSession(cfg, s, st).value.c.done
  {
    hide QueueNext;
    if s.c.pc.Select? {
      hide JoinNext;
      hide AfterQueueing;
      hide SayFarewell;
    } else {
      hide SelectNext;
    }
  }

  /** At some step of a connection the budget refused memory, and that settled `p`. */
  ghost predicate WasRefused(cfg: Config, p: Parcel) {
    exists s, st :: Reachable(cfg, s) && RefusedHere(cfg, s, st, p)
  }

  predicate RefusedHere(cfg: Config, s: State, st: Step, p: Parcel) {
    && Refused(cfg, s, st) && Next(cfg, s, st).Some?
    && p !in s.c.done && p in Next(cfg, s, st).value.c.done
  }

  lemma {:induction false} FirstReachable(cfg: Config, used0: int)
    requires 0 <= used0 <= cfg.limit
    ensures Reachable(cfg, State(INIT, used0)) && INIT.done == []
  {
    assert Run(cfg, State(INIT, used0), []) == Some(State(INIT, used0));
  }

  lemma {:induction false} StillReachable(cfg: Config, used0: int, events: seq<Event>, k: nat)
    requires 0 <= used0 <= cfg.limit && k <= |events| && Run(cfg, State(INIT, used0), events[..k]).Some?
    ensures Reachable(cfg, Run(cfg, State(INIT, used0), events[..k]).value)
  {
  }

  /**
   Every response that met its fate met the one its history says, for the reason named: what was dropped for want of
   memory was dropped when the budget refused it, as deployed no error response was ever too large, and nothing
   settled holds memory.
   */
  lemma {:induction false} FatesAreTrue(cfg: Config, s: State, p: Parcel)
    requires Reachable(cfg, s) && p in s.c.done
    ensures FateOk(p) && ReasonOk(s.c, p)
    ensures p.fate == Dropped(MemoryRefused) ==> WasRefused(cfg, p)
    ensures cfg == Deployed(cfg.protocol, cfg.limit) ==> p.fate != Dropped(MetadataTooLarge)
    ensures p.held == p.extra == p.uidCap == p.bodyCap == p.encCap == 0
  {
    hide Next;
    hide Refused;
    hide Inv;
    FatesMatchHistory(cfg, s, p);
    var used0: int, events: seq<Event> :| 0 <= used0 <= cfg.limit && Run(cfg, State(INIT, used0), events) == Some(s);
    hide Run;
    if p.fate == Dropped(MemoryRefused) {
      var k := RefusedOnTheWay(cfg, State(INIT, used0), events, p);
      StillReachable(cfg, used0, events, k);
      assert RefusedHere(cfg, Run(cfg, State(INIT, used0), events[..k]).value, events[k].st, p);
    }
    if p.fate == Dropped(MetadataTooLarge) && cfg == Deployed(cfg.protocol, cfg.limit) {
      FirstReachable(cfg, used0);
      NeverTooLarge(cfg, State(INIT, used0), events, p);
    }
  }

  /** As deployed, no run gives up a response because its error response is too large. */
  lemma {:induction false} NeverTooLarge(cfg: Config, s: State, events: seq<Event>, p: Parcel)
    requires cfg == Deployed(cfg.protocol, cfg.limit) && Reachable(cfg, s)
    requires Run(cfg, s, events).Some? && p !in s.c.done && p.fate == Dropped(MetadataTooLarge)
    ensures p !in Run(cfg, s, events).value.c.done
    decreases |events|
  {
    hide Next;
    hide Reachable;
    if events != [] {
      var s' := Happen(cfg, s, events[0]).value;
      RunOne(cfg, s, events[0]);
      StaysReachable(cfg, s, [events[0]]);
      if events[0].Own? && p in s'.c.done {
        NewlyRefused(cfg, s, events[0].st, p);
        MetadataAlwaysFits(cfg.protocol, cfg.limit, s, events[0].st);
        assert false;
      }
      NeverTooLarge(cfg, s', events[1..], p);
    }
  }

  /** An unanswered request: with the budget taken by others, the exporter is never called and nothing is sent. */
  lemma {:induction false} RequestCanGoUnanswered(cfg: Config) returns (s: State)
    ensures Reachable(cfg, s) && s.c.pc.Select? && WriterAlive(s.c) && s.c.next == 1
    ensures |s.c.done| == 1 && s.c.done[0].id == 0 && s.c.done[0].fate == Dropped(MemoryRefused)
    ensures s.c.done[0].tries == 0 && s.c.done[0].frames == 0 && s.c.posted == [] && s.c.writer.started == []
    ensures LiveParcels(s.c) == []
  {
    var s0 := State(INIT, cfg.limit);
    var request, reserve := SessionMoves(ReadRequest([65], 1)), TaskMoves(ReserveUid(1));
    assert Run(cfg, s0, []) == Some(s0);
    var s1 := Next(cfg, s0, request).value;
    ReachableStep(cfg, s0, request);
    assert s1.c.task == Some(Calling(NewScrape(0, [65])));
    s := Next(cfg, s1, reserve).value;
    ReachableStep(cfg, s1, reserve);
  }
}
