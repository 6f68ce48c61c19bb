/**
 The actor that posts 503 answers in the background: a queue of 8, at most 4 POSTs at a time, and
 the WebSocket for an answer whose POST failed. While it waits on the WebSocket queue it polls nothing else.
 */
module BusyAnswers {
  import opened Options
  import opened Protocol
  import opened FormEncoding
  import opened Parcels
  import opened BulkQueue

  const BUSY_RESPONSE_QUEUE_CAPACITY: nat := 8
  const BUSY_RESPONSE_CONCURRENCY: nat := 4

  datatype ActorPc = Serving | Answering(h: Hold) | Ended

  /** `queue` is the busy-answer channel, `posts` the futures the actor has taken on. */
  datatype BusyActor = BusyActor(queue: seq<Parcel>, inputOpen: bool, posts: seq<Parcel>, pc: ActorPc)

  datatype ActorStep =
    | TakeBusy
    | PrepareBusy(i: nat, cap: nat)
    | RefuseBusyHeader(i: nat)   // an access header cannot be encoded; the form is dropped
    | BusyAccepted(i: nat)
    | BusyFailed(i: nat, timedOut: bool)
    | AnswerStep(q: QueueStep)
    | EndActor
    | AbortActor

  /** What the actor sees of the rest: the writer is there, the session still sends, the actor is being aborted. */
  datatype ActorView = ActorView(writerOpen: bool, senders: bool, aborting: bool)

  datatype ActorResult = ActorResult(a: BusyActor, bulk: Bulk, lost: seq<Parcel>, posted: Option<Key>, used: int)

  function ActorParcel(pc: ActorPc): Option<Parcel> {
    match pc
    case Answering(h) => Some(h.p)
    case _ => None
  }

  /** The actor ends after `lost` was lost; its futures and its receiver drop what they hold. */
  function StopActor(a: BusyActor, bulk: Bulk, lost: seq<Parcel>, used: int): ActorResult {
    ActorResult(BusyActor([], false, [], Ended), bulk,
                lost + (DropAll(a.queue, ConnectionEnded) + DropAll(a.posts, ConnectionEnded)), None,
                used - Total(Reserved, a.queue) - Total(Reserved, a.posts))
  }

  function AfterAnswerStep(a: BusyActor, r: QueueResult): ActorResult {
    match r.out
    case Holding(h) => ActorResult(a.(pc := Answering(h)), r.bulk, [], None, r.used)
    case Pushed => ActorResult(a.(pc := Serving), r.bulk, [], None, r.used)
    case GaveUp(p) => ActorResult(a.(pc := Serving), r.bulk, [p], None, r.used)
    case Failed(p) => StopActor(a, r.bulk, [p], r.used)
  }

  function PostNext(cfg: Config, used: int, a: BusyActor, bulk: Bulk, i: nat, st: ActorStep): Option<ActorResult>
    requires i < |a.posts|
  {
    var p := a.posts[i];
    match st
    case PrepareBusy(_, cap) =>
      if !p.stage.Answered? || cap < cfg.formLen(p.now) then None
      else if used + cap <= cfg.limit then
        Some(ActorResult(a.(posts := a.posts[i := AttemptPost(p, cap)]), bulk, [], Some(KeyOf(p)), used + cap))
      else
        Some(ActorResult(a.(posts := RemoveAt(a.posts, i), pc := Answering(StartQueueing(FailPost(p, false)))), bulk,
            [], None, used))
    case RefuseBusyHeader(_) =>
      if !p.stage.Answered? then None
      else
        Some(ActorResult(a.(posts := RemoveAt(a.posts, i), pc := Answering(StartQueueing(FailPost(p, false)))), bulk,
            [], None, used))
    case BusyAccepted(_) =>
      if !p.stage.Posting? then None
      else Some(ActorResult(a.(posts := RemoveAt(a.posts, i)), bulk, [Finish(p, Accepted)], None,
          used - p.held - p.extra))
    case BusyFailed(_, timedOut) =>
      if !p.stage.Posting? then None
      else
        Some(ActorResult(a.(posts := RemoveAt(a.posts, i), pc := Answering(StartQueueing(FailPost(p, timedOut)))),
                         bulk, [], None, used - p.extra))
    case _ => None
  }

  function ActorNext(
      cfg: Config, used: int, a: BusyActor, bulk: Bulk, v: ActorView, st: ActorStep): Option<ActorResult>
  {
    match (a.pc, st)
    case (Serving, TakeBusy) =>
      if !a.inputOpen || |a.posts| >= BUSY_RESPONSE_CONCURRENCY then None
      else if a.queue != [] then
        Some(ActorResult(a.(queue := a.queue[1..], posts := a.posts + [a.queue[0]]), bulk, [], None, used))
      else if !v.senders then Some(ActorResult(a.(inputOpen := false), bulk, [], None, used))
      else None
    case (Serving, PrepareBusy(i, _)) => if i < |a.posts| then PostNext(cfg, used, a, bulk, i, st) else None
    case (Serving, RefuseBusyHeader(i)) => if i < |a.posts| then PostNext(cfg, used, a, bulk, i, st) else None
    case (Serving, BusyAccepted(i)) => if i < |a.posts| then PostNext(cfg, used, a, bulk, i, st) else None
    case (Serving, BusyFailed(i, _)) => if i < |a.posts| then PostNext(cfg, used, a, bulk, i, st) else None
    case (Answering(h), AnswerStep(q)) =>
      var r :- QueueNext(cfg, used, bulk, v.writerOpen, Actor, h, q);
      Some(AfterAnswerStep(a, r))
    case (Serving, EndActor) => if a.inputOpen || a.posts != [] then None else Some(StopActor(a, bulk, [], used))
    case (Serving, AbortActor) => if v.aborting then Some(StopActor(a, bulk, [], used)) else None
    case (Answering(h), AbortActor) =>
      if v.aborting then Some(StopActor(a, bulk, [Drop(h.p, ConnectionEnded)], used - h.p.held - h.p.extra)) else None
    case _ => None
  }

  // --------------------------------------------------------------- what it keeps

  predicate PostOk(cfg: Config, p: Parcel) {
    FreshAnswer(cfg, p, Busy) || InFlight(cfg, p, Busy)
  }

  predicate AllQueued(cfg: Config, q: seq<Parcel>) {
    forall i :: 0 <= i < |q| ==> QueuedOk(cfg, q[i])
  }

  predicate AllFinished(cfg: Config, q: seq<Parcel>) {
    forall i :: 0 <= i < |q| ==> FinishedOk(cfg, q[i])
  }

  predicate ActorParcelsOk(cfg: Config, a: BusyActor) {
    && (forall i :: 0 <= i < |a.queue| ==> FreshAnswer(cfg, a.queue[i], Busy))
    && (forall i :: 0 <= i < |a.posts| ==> PostOk(cfg, a.posts[i]))
    && (a.pc.Answering? ==> HoldOk(cfg, a.pc.h))
  }

  /** The answer in front of POST `i` is no longer posted but on its way to the WebSocket, unchanged. */
  predicate FallsBack(a: BusyActor, a': BusyActor, i: nat, timedOut: bool)
    requires i < |a.posts|
  {
    && a'.pc.Answering? && a'.pc.h.at == AtReserve && a'.posts == a.posts[..i] + a.posts[i + 1..] && a'.queue == a.queue
    && var p, q := a.posts[i], a'.pc.h.p;
       q.id == p.id && q.kind == p.kind && q.now == p.now && q.orig == p.orig && q.failed && (q.late <==> timedOut)
       && q.tries == p.tries && q.held == p.held && q.extra == 0
  }

  /**
   Busy answers are posted in the order they came, while fewer than four posts run, each as it is if its form's memory
   is granted; an accepted one is done, and any other falls back to the WebSocket.
   */
  lemma {:induction false} BusyPostsThenFallsBack(
      cfg: Config, used: int, a: BusyActor, bulk: Bulk, v: ActorView, st: ActorStep)
    requires a.pc.Serving? && ActorNext(cfg, used, a, bulk, v, st).Some?
    ensures var r := ActorNext(cfg, used, a, bulk, v, st).value;
            match st
            case TakeBusy =>
              && a.inputOpen && |a.posts| < 4 && r.used == used && r.lost == [] && r.posted == None
              && (if a.queue != [] then r.a.posts == a.posts + [a.queue[0]] && [a.queue[0]] + r.a.queue == a.queue
                  else !v.senders && r.a == a.(inputOpen := false))
            case PrepareBusy(i, cap) =>
              && i < |a.posts| && a.posts[i].stage.Answered? && r.lost == []
              && (if used + cap <= cfg.limit then
                    && r.posted == Some(Key(a.posts[i].id, a.posts[i].now)) && r.a.pc.Serving?
                    && |r.a.posts| == |a.posts| && r.a.posts[i].stage.Posting?
                    && r.a.posts[i].tries == a.posts[i].tries + 1
                    && r.a.posts[i].now == a.posts[i].now && r.used == used + cap
                  else r.posted == None && (a.posts[i].extra == 0 ==> FallsBack(a, r.a, i, false)) && r.used == used)
            case RefuseBusyHeader(i) =>
              i < |a.posts| && r.lost == [] && r.posted == None && FallsBack(a, r.a, i, false) && r.used == used
            case BusyAccepted(i) =>
              && i < |a.posts| && a.posts[i].stage.Posting? && r.posted == None && r.a.pc.Serving?
              && |r.lost| == 1 && r.lost[0].id == a.posts[i].id && r.lost[0].fate == Accepted
              && r.a.posts == a.posts[..i] + a.posts[i + 1..] && r.used == used - a.posts[i].held - a.posts[i].extra
            case BusyFailed(i, timedOut) =>
              && i < |a.posts| && a.posts[i].stage.Posting? && r.lost == [] && r.posted == None
              && FallsBack(a, r.a, i, timedOut) && r.used == used - a.posts[i].extra
            case EndActor => !a.inputOpen && a.posts == [] && r.a.pc.Ended?
            case _ => r.a.pc.Ended?
  {
    if st.EndActor? || st.AbortActor? {
      hide PostNext;
    } else {
      hide StopActor;
    }
  }

  /**
   What the actor can do next: take an answer while fewer than four POSTs run, or see that no more will come; prepare
   any answer it has taken; hear of any POST that runs; return once there is nothing more to do.
   */
  lemma {:induction false} ActorMovesExactlyWhen(
      cfg: Config, used: int, a: BusyActor, bulk: Bulk, v: ActorView, i: nat, cap: nat, late: bool)
    requires a.pc.Serving?
    ensures ActorNext(cfg, used, a, bulk, v, TakeBusy).Some? <==>
            a.inputOpen && |a.posts| < 4 && (a.queue != [] || !v.senders)
    ensures ActorNext(cfg, used, a, bulk, v, PrepareBusy(i, cap)).Some? <==>
            i < |a.posts| && a.posts[i].stage.Answered? && cfg.formLen(a.posts[i].now) <= cap
    ensures ActorNext(cfg, used, a, bulk, v, RefuseBusyHeader(i)).Some? <==>
            i < |a.posts| && a.posts[i].stage.Answered?
    ensures ActorNext(cfg, used, a, bulk, v, BusyAccepted(i)).Some? <==> i < |a.posts| && a.posts[i].stage.Posting?
    ensures ActorNext(cfg, used, a, bulk, v, BusyFailed(i, late)).Some? <==> i < |a.posts| && a.posts[i].stage.Posting?
    ensures ActorNext(cfg, used, a, bulk, v, EndActor).Some? <==> !a.inputOpen && a.posts == []
  {
  }

  /** Once an answer is queued or given up the actor serves on with what it has; only a dead writer ends it there. */
  lemma {:induction false} AnsweringGoesOn(
      cfg: Config, used: int, a: BusyActor, bulk: Bulk, v: ActorView, h: Hold, q: QueueStep)
    requires a.pc == Answering(h) && ActorNext(cfg, used, a, bulk, v, AnswerStep(q)).Some?
    ensures var r := ActorNext(cfg, used, a, bulk, v, AnswerStep(q)).value;
            var out := QueueNext(cfg, used, bulk, v.writerOpen, Actor, h, q).value.out;
            && (r.a.pc.Ended? <==> !v.writerOpen && q == FindClosed)
            && (!r.a.pc.Ended? ==>
                  && r.a.queue == a.queue && r.a.posts == a.posts && r.a.inputOpen == a.inputOpen
                  && (r.a.pc.Serving? <==> out.Pushed? || out.GaveUp?))
  {
  }

  /** The bounds of the queue and of the POSTs, counting one whose answer is being queued. */
  predicate ActorBounded(a: BusyActor) {
    && |a.queue| <= BUSY_RESPONSE_QUEUE_CAPACITY
    && |a.posts| + (if a.pc.Answering? then 1 else 0) <= BUSY_RESPONSE_CONCURRENCY
    && (a.pc.Ended? ==> a.queue == [] && a.posts == [] && !a.inputOpen)
    && (!a.inputOpen ==> a.queue == [])
  }

  predicate ActorConsistent(a: BusyActor, b: Bulk) {
    if a.pc.Answering? then Consistent(b, Actor, a.pc.h) else !b.Waits(Actor)
  }

  lemma {:induction false} StopKeepsParcels(cfg: Config, a: BusyActor, bulk: Bulk, lost: seq<Parcel>, used: int)
    requires ActorParcelsOk(cfg, a) && AllFinished(cfg, lost)
    ensures AllFinished(cfg, StopActor(a, bulk, lost, used).lost)
  {
    assert AllFinished(cfg, DropAll(a.queue, ConnectionEnded));
    assert AllFinished(cfg, DropAll(a.posts, ConnectionEnded));
  }

  lemma {:induction false} PostKeepsParcels(cfg: Config, used: int, a: BusyActor, bulk: Bulk, i: nat, st: ActorStep)
    requires ActorParcelsOk(cfg, a) && AllQueued(cfg, bulk.queue) && i < |a.posts|
    requires PostNext(cfg, used, a, bulk, i, st).Some?
    requires a.pc.Serving?
    ensures var r := PostNext(cfg, used, a, bulk, i, st).value;
            ActorParcelsOk(cfg, r.a) && AllQueued(cfg, r.bulk.queue) && AllFinished(cfg, r.lost)
  {
  }

  lemma {:induction false} ActorKeepsParcels(
      cfg: Config, used: int, a: BusyActor, bulk: Bulk, v: ActorView, st: ActorStep)
    requires ActorParcelsOk(cfg, a) && AllQueued(cfg, bulk.queue) && ActorNext(cfg, used, a, bulk, v, st).Some?
    ensures var r := ActorNext(cfg, used, a, bulk, v, st).value;
            ActorParcelsOk(cfg, r.a) && AllQueued(cfg, r.bulk.queue) && AllFinished(cfg, r.lost)
  {
    match st {
      case PrepareBusy(i, _) => PostKeepsParcels(cfg, used, a, bulk, i, st);
      case RefuseBusyHeader(i) => PostKeepsParcels(cfg, used, a, bulk, i, st);
      case BusyAccepted(i) => PostKeepsParcels(cfg, used, a, bulk, i, st);
      case BusyFailed(i, _) => PostKeepsParcels(cfg, used, a, bulk, i, st);
      case AnswerStep(q) =>
        QueueKeepsParcels(cfg, used, bulk, v.writerOpen, Actor, a.pc.h, q);
        var qr := QueueNext(cfg, used, bulk, v.writerOpen, Actor, a.pc.h, q).value;
        if qr.out.Failed? {
          StopKeepsParcels(cfg, a, qr.bulk, [qr.out.p], qr.used);
        }
      case EndActor => StopKeepsParcels(cfg, a, bulk, [], used);
      case AbortActor =>
        StopKeepsParcels(cfg, a, bulk, [], used);
        if a.pc.Answering? {
          StopKeepsParcels(cfg, a, bulk, [Drop(a.pc.h.p, ConnectionEnded)], used - a.pc.h.p.held - a.pc.h.p.extra);
        }
      case _ =>
    }
  }

  /** At most 4 POSTs and 8 queued answers, and the slots of the bulk queue stay accounted for. */
  lemma {:induction false} ActorStaysBounded(
      cfg: Config, used: int, a: BusyActor, bulk: Bulk, v: ActorView, st: ActorStep)
    requires ActorBounded(a) && ActorNext(cfg, used, a, bulk, v, st).Some?
    ensures ActorBounded(ActorNext(cfg, used, a, bulk, v, st).value.a)
  {
  }

  lemma {:induction false} ActorKeepsSlots(
      cfg: Config, used: int, a: BusyActor, bulk: Bulk, v: ActorView, st: ActorStep)
    requires bulk.Ok() && ActorConsistent(a, bulk) && ActorNext(cfg, used, a, bulk, v, st).Some?
    requires v.writerOpen && !v.aborting
    ensures var r := ActorNext(cfg, used, a, bulk, v, st).value;
            r.bulk.Ok() && ActorConsistent(r.a, r.bulk) && r.bulk.Waits(Session) == bulk.Waits(Session)
  {
    if a.pc.Answering? && st.AnswerStep? {
      QueueKeepsSlots(cfg, used, bulk, v.writerOpen, Actor, a.pc.h, st.q);
    }
  }

  function ActorTotal(m: Measure, a: BusyActor): nat {
    Total(m, a.queue) + Total(m, a.posts) + Maybe(m, ActorParcel(a.pc))
  }

  /** What the histories of the actor's parcels have in common. */
  predicate Plain(p: Parcel) {
    p.now == p.orig && p.frames == 0
  }

  predicate ActorPlain(a: BusyActor) {
    (forall i :: 0 <= i < |a.posts| ==> Plain(a.posts[i])) && (a.pc.Answering? ==> a.pc.h.p.frames == 0)
  }

  lemma {:induction false} StopConserves(m: Measure, a: BusyActor, bulk: Bulk, lost: seq<Parcel>, used: int)
    requires CountsRequests(m)
    ensures var r := StopActor(a, bulk, lost, used);
            ActorTotal(m, r.a) + Total(m, r.lost) == Total(m, lost) + Total(m, a.queue) + Total(m, a.posts)
  {
    TotalDropAll(m, a.queue, ConnectionEnded);
    TotalDropAll(m, a.posts, ConnectionEnded);
    TotalConcat(m, DropAll(a.queue, ConnectionEnded), DropAll(a.posts, ConnectionEnded));
    TotalConcat(m, lost, DropAll(a.queue, ConnectionEnded) + DropAll(a.posts, ConnectionEnded));
  }

  lemma {:induction false} FailKeepsWeight(m: Measure, p: Parcel, timedOut: bool)
    requires CountsRequests(m)
    ensures Weight(m, FailPost(p, timedOut)) == Weight(m, p)
    ensures Weight(m, Finish(p, Accepted)) == Weight(m, p)
  {
  }

  lemma {:induction false} AttemptAddsWeight(m: Measure, p: Parcel, cap: nat)
    requires CountsRequests(m) && Plain(p)
    ensures Weight(m, AttemptPost(p, cap)) == Weight(m, p) + if OfPosts(m) then KeyWeight(m, KeyOf(p)) else 0
  {
  }

  lemma {:induction false} PrepareConserves(m: Measure, a: BusyActor, i: nat, cap: nat)
    requires a.pc.Serving? && i < |a.posts| && Plain(a.posts[i]) && CountsRequests(m)
    ensures ActorTotal(m, a.(posts := a.posts[i := AttemptPost(a.posts[i], cap)])) ==
            ActorTotal(m, a) + if OfPosts(m) then KeyWeight(m, KeyOf(a.posts[i])) else 0
  {
    TotalUpdate(m, a.posts, i, AttemptPost(a.posts[i], cap));
    AttemptAddsWeight(m, a.posts[i], cap);
    hide Weight;
    hide Total;
    hide AttemptPost;
  }

  lemma {:induction false} FailedPostConserves(m: Measure, a: BusyActor, i: nat, timedOut: bool)
    requires a.pc.Serving? && i < |a.posts| && CountsRequests(m)
    ensures var p := FailPost(a.posts[i], timedOut);
            ActorTotal(m, a.(posts := RemoveAt(a.posts, i), pc := Answering(StartQueueing(p)))) == ActorTotal(m, a)
  {
    TotalRemoveAt(m, a.posts, i);
    FailKeepsWeight(m, a.posts[i], timedOut);
    hide Weight;
    hide Total;
    hide FailPost;
  }

  lemma {:induction false} AcceptedPostConserves(m: Measure, a: BusyActor, i: nat)
    requires a.pc.Serving? && i < |a.posts| && CountsRequests(m)
    ensures ActorTotal(m, a.(posts := RemoveAt(a.posts, i))) + Total(m, [Finish(a.posts[i], Accepted)]) ==
              ActorTotal(m, a)
  {
    TotalRemoveAt(m, a.posts, i);
    TotalOne(m, Finish(a.posts[i], Accepted));
    FailKeepsWeight(m, a.posts[i], false);
    hide Weight;
    hide Total;
    hide Finish;
  }

  lemma {:induction false} PostConserves(
      m: Measure, cfg: Config, used: int, a: BusyActor, bulk: Bulk, i: nat, st: ActorStep)
    requires a.pc.Serving? && i < |a.posts| && Plain(a.posts[i])
    requires PostNext(cfg, used, a, bulk, i, st).Some? && CountsRequests(m)
    ensures var r := PostNext(cfg, used, a, bulk, i, st).value;
            ActorTotal(m, r.a) + Total(m, r.lost) ==
              ActorTotal(m, a) + (if OfPosts(m) then MaybeKey(m, r.posted) else 0)
            && r.bulk == bulk
  {
    assert Total(m, []) == 0;
    hide Weight;
    hide Total;
    hide AttemptPost;
    hide FailPost;
    hide Finish;
    hide ActorTotal;
    match st {
      case PrepareBusy(_, cap) =>
        PrepareConserves(m, a, i, cap);
        FailedPostConserves(m, a, i, false);
      case RefuseBusyHeader(_) => FailedPostConserves(m, a, i, false);
      case BusyAccepted(_) => AcceptedPostConserves(m, a, i);
      case BusyFailed(_, timedOut) => FailedPostConserves(m, a, i, timedOut);
      case _ =>
    }
  }

  lemma {:induction false} AnswerConserves(m: Measure, a: BusyActor, bulk: Bulk, r: QueueResult)
    requires a.pc.Answering? && CountsRequests(m)
    requires OutcomeTotal(m, r.out) + Total(m, r.bulk.queue) == Weight(m, a.pc.h.p) + Total(m, bulk.queue)
    ensures var ar := AfterAnswerStep(a, r);
            ActorTotal(m, ar.a) + Total(m, ar.bulk.queue) + Total(m, ar.lost) == ActorTotal(m, a) + Total(m, bulk.queue)
  {
    if r.out.Failed? || r.out.GaveUp? {
      TotalOne(m, r.out.p);
      StopConserves(m, a, r.bulk, [r.out.p], r.used);
    }
  }

  lemma {:induction false} EndConserves(
      m: Measure, cfg: Config, used: int, a: BusyActor, bulk: Bulk, v: ActorView, st: ActorStep)
    requires st.EndActor? || st.AbortActor?
    requires ActorNext(cfg, used, a, bulk, v, st).Some? && CountsRequests(m)
    ensures var r := ActorNext(cfg, used, a, bulk, v, st).value;
            ActorTotal(m, r.a) + Total(m, r.bulk.queue) + Total(m, r.lost) ==
              ActorTotal(m, a) + Total(m, bulk.queue) && r.posted.None?
  {
    hide Weight;
    hide Finish;
    if a.pc.Answering? {
      var last := Drop(a.pc.h.p, ConnectionEnded);
      FinishKeepsWeight(m, a.pc.h.p, Dropped(ConnectionEnded));
      StopConserves(m, a, bulk, [last], used - a.pc.h.p.held - a.pc.h.p.extra);
    } else {
      StopConserves(m, a, bulk, [], used);
    }
  }

  /** No busy answer is lost or duplicated by the actor, and its POSTs are logged. */
  lemma {:induction false} ActorConserves(
      m: Measure, cfg: Config, used: int, a: BusyActor, bulk: Bulk, v: ActorView, st: ActorStep)
    requires ActorPlain(a) && ActorNext(cfg, used, a, bulk, v, st).Some? && CountsRequests(m)
    ensures var r := ActorNext(cfg, used, a, bulk, v, st).value;
            ActorTotal(m, r.a) + Total(m, r.bulk.queue) + Total(m, r.lost)
            == ActorTotal(m, a) + Total(m, bulk.queue) + if OfPosts(m) then MaybeKey(m, r.posted) else 0
  {
    match st {
      case TakeBusy => if a.queue != [] { TotalPush(m, a.posts, a.queue[0]); }
      case PrepareBusy(i, _) => PostConserves(m, cfg, used, a, bulk, i, st);
      case RefuseBusyHeader(i) => PostConserves(m, cfg, used, a, bulk, i, st);
      case BusyAccepted(i) => PostConserves(m, cfg, used, a, bulk, i, st);
      case BusyFailed(i, _) => PostConserves(m, cfg, used, a, bulk, i, st);
      case AnswerStep(q) =>
        QueueConserves(m, cfg, used, bulk, v.writerOpen, Actor, a.pc.h, q);
        AnswerConserves(m, a, bulk, QueueNext(cfg, used, bulk, v.writerOpen, Actor, a.pc.h, q).value);
      case EndActor => EndConserves(m, cfg, used, a, bulk, v, st);
      case AbortActor => EndConserves(m, cfg, used, a, bulk, v, st);
    }
  }

  predicate ActorSpendable(a: BusyActor) {
    && (forall i :: 0 <= i < |a.posts| && a.posts[i].stage.Answered? ==> a.posts[i].extra == 0)
    && (a.pc.Answering? ==> Spendable(a.pc.h))
  }

  lemma {:induction false} PostKeepsLedger(cfg: Config, used: int, a: BusyActor, bulk: Bulk, i: nat, st: ActorStep)
    requires ActorSpendable(a) && a.pc.Serving? && i < |a.posts| && PostNext(cfg, used, a, bulk, i, st).Some?
    ensures var r := PostNext(cfg, used, a, bulk, i, st).value;
            r.used - used == ActorTotal(Reserved, r.a) - ActorTotal(Reserved, a)
            && r.bulk == bulk && (used <= cfg.limit ==> r.used <= cfg.limit)
  {
    TotalRemoveAt(Reserved, a.posts, i);
    if st.PrepareBusy? {
      TotalUpdate(Reserved, a.posts, i, AttemptPost(a.posts[i], st.cap));
    }
  }

  lemma {:induction false} AnswerKeepsLedger(
      cfg: Config, used: int, a: BusyActor, bulk: Bulk, v: ActorView, q: QueueStep)
    requires a.pc.Answering? && Spendable(a.pc.h)
    requires QueueNext(cfg, used, bulk, v.writerOpen, Actor, a.pc.h, q).Some?
    ensures var r := AfterAnswerStep(a, QueueNext(cfg, used, bulk, v.writerOpen, Actor, a.pc.h, q).value);
            r.used - used == ActorTotal(Reserved, r.a)
                + Total(Reserved, r.bulk.queue) - ActorTotal(Reserved, a) - Total(Reserved, bulk.queue)
            && (used <= cfg.limit ==> r.used <= cfg.limit)
  {
    hide QueueNext;
    hide Weight;
    hide DropAll;
    QueueKeepsLedger(cfg, used, bulk, v.writerOpen, Actor, a.pc.h, q);
    GivenUpHoldsNothing(cfg, used, bulk, v.writerOpen, a.pc.h, q);
  }

  lemma {:induction false} GivenUpHoldsNothing(cfg: Config, used: int, b: Bulk, open: bool, h: Hold, q: QueueStep)
    requires QueueNext(cfg, used, b, open, Actor, h, q).Some?
    ensures var out := QueueNext(cfg, used, b, open, Actor, h, q).value.out;
            out.GaveUp? || out.Failed? ==> Weight(Reserved, out.p) == 0
  {
  }

  lemma {:induction false} ActorKeepsLedger(
      cfg: Config, used: int, a: BusyActor, bulk: Bulk, v: ActorView, st: ActorStep)
    requires ActorSpendable(a) && ActorNext(cfg, used, a, bulk, v, st).Some?
    ensures var r := ActorNext(cfg, used, a, bulk, v, st).value;
            r.used - used == ActorTotal(Reserved, r.a)
                + Total(Reserved, r.bulk.queue) - ActorTotal(Reserved, a) - Total(Reserved, bulk.queue)
            && (used <= cfg.limit ==> r.used <= cfg.limit)
  {
    match st {
      case TakeBusy => if a.queue != [] { TotalPush(Reserved, a.posts, a.queue[0]); }
      case PrepareBusy(i, _) => PostKeepsLedger(cfg, used, a, bulk, i, st);
      case RefuseBusyHeader(i) => PostKeepsLedger(cfg, used, a, bulk, i, st);
      case BusyAccepted(i) => PostKeepsLedger(cfg, used, a, bulk, i, st);
      case BusyFailed(i, _) => PostKeepsLedger(cfg, used, a, bulk, i, st);
      case AnswerStep(q) => AnswerKeepsLedger(cfg, used, a, bulk, v, q);
      case _ =>
    }
  }
}
