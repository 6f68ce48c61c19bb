/**
 The bounded queue of encoded responses and `queue_ws_response`, which the session and the
 busy-answer actor both run. A sender that finds no free slot waits in line; a slot freed by the
 writer goes to the first in line.
 */
module BulkQueue {
  import opened Options
  import opened Bytes
  import opened Protocol
  import opened Parcels

  const BULK_QUEUE_CAPACITY: nat := 8

  datatype Who = Session | Actor

  /** What the writer will put on the wire for queued parcels. */
  function Keys(q: seq<Parcel>): (r: seq<Key>)
    ensures |r| == |q|
    ensures forall i :: 0 <= i < |q| ==> r[i] == KeyOf(q[i])
  {
    if q == [] then [] else [KeyOf(q[0])] + Keys(q[1..])
  }

  /** `pushed` is the history of everything that ever entered the queue, in order. */
  datatype Bulk = Bulk(queue: seq<Parcel>, permits: nat, line: seq<Who>, sessionHasSlot: bool, actorHasSlot: bool,
      pushed: seq<Key>)
  {
    predicate HasSlot(who: Who) {
      match who
      case Session => sessionHasSlot
      case Actor => actorHasSlot
    }

    function SetSlot(who: Who, b: bool): Bulk {
      match who
      case Session => this.(sessionHasSlot := b)
      case Actor => this.(actorHasSlot := b)
    }

    function Slots(): nat {
      (if sessionHasSlot then 1 else 0) + (if actorHasSlot then 1 else 0)
    }

    /** `who` stands in line or has been given a slot it has not used yet. */
    predicate Waits(who: Who) {
      who in line || HasSlot(who)
    }

    predicate Ok() {
      && |queue| + permits + Slots() == BULK_QUEUE_CAPACITY
      && (line != [] ==> permits == 0)
      && |line| <= 2
      && (|line| == 2 ==> line[0] != line[1])
      && (forall who :: who in line ==> !HasSlot(who))
    }

    function Push(p: Parcel): Bulk {
      this.(queue := queue + [p], pushed := pushed + [KeyOf(p)])
    }

    /** The writer takes the oldest entry; its slot goes to the first in line, if any. */
    function Pop(): Bulk
      requires queue != []
    {
      var rest := this.(queue := queue[1..]);
      if line == [] then rest.(permits := permits + 1)
      else rest.(line := line[1..]).SetSlot(line[0], true)
    }
  }

  const EMPTY: Bulk := Bulk([], BULK_QUEUE_CAPACITY, [], false, false, [])

  // ------------------------------------------------------- queue_ws_response

  /** Where a caller of `queue_ws_response` is. */
  datatype At = AtReserve | AtFallback | AtSerialize | AtSend | AtWait

  datatype Hold = Hold(p: Parcel, at: At)

  datatype QueueStep =
    | ReserveJson           // reserve the exact JSON length, or downgrade to the error response
    | ReserveFallback       // reserve the length of the error response, or give up
    | Serialize(cap: nat)   // the allocator gives `cap` bytes; reserve the slack
    | Send                  // take a free slot or get in line
    | UseSlot               // a slot was granted
    | FindClosed            // the writer is gone

  datatype Outcome =
    | Holding(h: Hold)
    | Pushed
    | GaveUp(p: Parcel)     // dropped with a warning, the connection goes on
    | Failed(p: Parcel)     // "websocket writer stopped"

  datatype QueueResult = QueueResult(out: Outcome, bulk: Bulk, used: int)

  function StartQueueing(p: Parcel): Hold {
    Hold(p, AtReserve)
  }

  function Downgrade(p: Parcel): Parcel {
    p.(now := ErrorFor(p.now.uid), bodyCap := 0, held := p.uidCap)
  }

  function WithJsonReservation(cfg: Config, p: Parcel): Parcel {
    p.(stage := Serializing, extra := cfg.jsonLen(p.now))
  }

  function WithJson(p: Parcel, cap: nat): Parcel {
    p.(stage := Encoded, uidCap := 0, bodyCap := 0, held := 0, encCap := cap, extra := cap)
  }

  /**
   One step of `queue_ws_response` against a budget with `used` of `cfg.limit` bytes taken; `None` when it cannot
   move.
   */
  function QueueNext(
      cfg: Config, used: int, b: Bulk, open: bool, who: Who, h: Hold, st: QueueStep): Option<QueueResult>
  {
    var p := h.p;
    var n := cfg.jsonLen(p.now);
    match (h.at, st)
    case (AtReserve, ReserveJson) =>
      if n <= MAX_WS_MESSAGE_SIZE && used + n <= cfg.limit then
        Some(QueueResult(Holding(Hold(WithJsonReservation(cfg, p), AtSerialize)), b, used + n))
      else
        Some(QueueResult(Holding(Hold(Downgrade(p), AtFallback)), b, used - (p.held - p.uidCap)))
    case (AtFallback, ReserveFallback) =>
      if n > MAX_WS_MESSAGE_SIZE then Some(QueueResult(GaveUp(Drop(p, MetadataTooLarge)), b, used - p.held))
      else if used + n <= cfg.limit then
        Some(QueueResult(Holding(Hold(WithJsonReservation(cfg, p), AtSerialize)), b, used + n))
      else
        Some(QueueResult(GaveUp(Drop(p, MemoryRefused)), b, used - p.held))
    case (AtSerialize, Serialize(cap)) =>
      if cap < p.extra then None
      else if used + (cap - p.extra) <= cfg.limit then
        Some(QueueResult(Holding(Hold(WithJson(p, cap), AtSend)), b, used + (cap - p.extra) - p.held))
      else
        Some(QueueResult(GaveUp(Drop(p, MemoryRefused)), b, used - p.extra - p.held))
    case (AtSend, Send) =>
      if !open then None
      else if b.permits > 0 then Some(QueueResult(Pushed, b.(permits := b.permits - 1).Push(p), used))
      else Some(QueueResult(Holding(Hold(p, AtWait)), b.(line := b.line + [who]), used))
    case (AtWait, UseSlot) =>
      if open && b.HasSlot(who) then Some(QueueResult(Pushed, b.SetSlot(who, false).Push(p), used)) else None
    case (AtSend, FindClosed) =>
      if open then None else Some(QueueResult(Failed(Drop(p, WriterFailed)), b, used - p.extra))
    case (AtWait, FindClosed) =>
      if open then None else Some(QueueResult(Failed(Drop(p, WriterFailed)), b, used - p.extra))
    case _ => None
  }

  // --------------------------------------------------------------- what it keeps

  predicate HoldOk(cfg: Config, h: Hold) {
    && LiveOk(cfg, h.p)
    && h.p.frames == 0 && PostFirst(cfg, h.p)
    && (h.p.tries == 1 ==> h.p.failed)
    && !TooLateToResend(h.p)
    && (match h.at
        case AtReserve => h.p.stage == Answered && h.p.now == h.p.orig
        case AtFallback => h.p.stage == Answered && h.p.now == ErrorFor(h.p.orig.uid)
        case AtSerialize => h.p.stage == Serializing && cfg.jsonLen(h.p.now) <= MAX_WS_MESSAGE_SIZE
        case AtSend => QueuedOk(cfg, h.p)
        case AtWait => QueuedOk(cfg, h.p))
  }

  /** A parcel fit for the bulk queue. */
  predicate QueuedOk(cfg: Config, p: Parcel) {
    && LiveOk(cfg, p) && p.stage == Encoded && p.frames == 0 && PostFirst(cfg, p)
    && (p.tries == 1 ==> p.failed)
    && !TooLateToResend(p)
    && cfg.jsonLen(p.now) <= MAX_WS_MESSAGE_SIZE
  }

  /** A response on its way to `queue_ws_response`. */
  predicate ForWebSocket(cfg: Config, p: Parcel) {
    HoldOk(cfg, StartQueueing(p))
  }

  lemma {:induction false} QueueKeepsParcels(
      cfg: Config, used: int, b: Bulk, open: bool, who: Who, h: Hold, st: QueueStep)
    requires HoldOk(cfg, h) && QueueNext(cfg, used, b, open, who, h, st).Some?
    requires forall i :: 0 <= i < |b.queue| ==> QueuedOk(cfg, b.queue[i])
    ensures var r := QueueNext(cfg, used, b, open, who, h, st).value;
            && (r.out.Holding? ==> HoldOk(cfg, r.out.h))
            && (r.out.GaveUp? ==> FinishedOk(cfg, r.out.p))
            && (r.out.Failed? ==> FinishedOk(cfg, r.out.p))
            && (forall i :: 0 <= i < |r.bulk.queue| ==> QueuedOk(cfg, r.bulk.queue[i]))
  {
  }

  /** What becomes of a response in `queue_ws_response`, step by step; only a full queue makes it wait. */
  lemma {:induction false} QueueMovesExactlyWhen(
      cfg: Config, used: int, b: Bulk, open: bool, who: Who, h: Hold, cap: nat)
    ensures QueueNext(cfg, used, b, open, who, h, ReserveJson).Some? <==> h.at == AtReserve
    ensures QueueNext(cfg, used, b, open, who, h, ReserveFallback).Some? <==> h.at == AtFallback
    ensures QueueNext(cfg, used, b, open, who, h, Serialize(cap)).Some? <==> h.at == AtSerialize && h.p.extra <= cap
    ensures QueueNext(cfg, used, b, open, who, h, Send).Some? <==> h.at == AtSend && open
    ensures QueueNext(cfg, used, b, open, who, h, UseSlot).Some? <==> h.at == AtWait && open && b.HasSlot(who)
    ensures QueueNext(cfg, used, b, open, who, h, FindClosed).Some? <==> (h.at == AtSend || h.at == AtWait) && !open
    ensures h.at == AtSend && open ==>
              (QueueNext(cfg, used, b, open, who, h, Send).value.out == Pushed <==> b.permits > 0)
  {
  }

  predicate Consistent(b: Bulk, who: Who, h: Hold) {
    b.Waits(who) <==> h.at == AtWait
  }

  /** The slots of the queue are never lost or invented, and each sender waits for at most one. */
  lemma {:induction false} QueueKeepsSlots(
      cfg: Config, used: int, b: Bulk, open: bool, who: Who, h: Hold, st: QueueStep)
    requires b.Ok() && Consistent(b, who, h)
    requires QueueNext(cfg, used, b, open, who, h, st).Some?
    ensures var r := QueueNext(cfg, used, b, open, who, h, st).value;
            && r.bulk.Ok()
            && (r.out.Holding? ==> Consistent(r.bulk, who, r.out.h))
            && (r.out.Pushed? || r.out.GaveUp? ==> !r.bulk.Waits(who))
            && (forall other :: other != who ==> r.bulk.Waits(other) == b.Waits(other))
  {
  }

  lemma {:induction false} PopKeepsSlots(b: Bulk)
    requires b.Ok() && b.queue != []
    ensures b.Pop().Ok() && forall who :: b.Pop().Waits(who) == b.Waits(who)
  {
    if b.line != [] {
      var rest := b.line[1..];
      assert b.line == [b.line[0]] + rest;
      assert b.line[0] !in rest;
      forall who ensures who in b.line <==> who == b.line[0] || who in rest {
      }
    }
  }

  lemma {:induction false} KeysConcat(a: seq<Parcel>, b: seq<Parcel>)
    ensures Keys(a + b) == Keys(a) + Keys(b)
  {
    if a == [] {
      assert a + b == b;
    } else {
      assert (a + b)[1..] == a[1..] + b;
      KeysConcat(a[1..], b);
    }
  }

  lemma {:induction false} PushKeepsOrder(taken: seq<Key>, b: Bulk, p: Parcel)
    requires taken + Keys(b.queue) == b.pushed
    ensures taken + Keys(b.Push(p).queue) == b.Push(p).pushed
  {
    KeysConcat(b.queue, [p]);
    assert Keys([p]) == [KeyOf(p)];
    assert taken + (Keys(b.queue) + [KeyOf(p)]) == (taken + Keys(b.queue)) + [KeyOf(p)];
  }

  /** The queue is always the part of its history that has not been taken. */
  lemma {:induction false} QueueKeepsOrder(
      taken: seq<Key>, cfg: Config, used: int, b: Bulk, open: bool, who: Who, h: Hold, st: QueueStep)
    requires QueueNext(cfg, used, b, open, who, h, st).Some?
    ensures var b' := QueueNext(cfg, used, b, open, who, h, st).value.bulk;
            && (open && taken + Keys(b.queue) == b.pushed ==> taken + Keys(b'.queue) == b'.pushed)
            && (!open ==> b'.queue == b.queue && b'.pushed == b.pushed)
  {
    hide Keys;
    if taken + Keys(b.queue) == b.pushed {
      PushKeepsOrder(taken, b, h.p);
    }
  }

  function OutcomeTotal(m: Measure, out: Outcome): nat {
    match out
    case Holding(h) => Weight(m, h.p)
    case Pushed => 0
    case GaveUp(p) => Weight(m, p)
    case Failed(p) => Weight(m, p)
  }

  /** Encoding, downgrading and dropping a response do not change what it stands for. */
  lemma {:induction false} QueueWeights(m: Measure, cfg: Config, p: Parcel, cap: nat)
    requires p.frames == 0 && CountsRequests(m)
    ensures Weight(m, Downgrade(p)) ==
              Weight(m, WithJsonReservation(cfg, p)) == Weight(m, WithJson(p, cap)) == Weight(m, p)
    ensures Weight(m, Drop(p, MemoryRefused)) ==
              Weight(m, Drop(p, MetadataTooLarge)) == Weight(m, Drop(p, WriterFailed)) == Weight(m, p)
  {
  }

  /** Nothing is duplicated or lost on the way into the queue. */
  lemma {:induction false} QueueConserves(
      m: Measure, cfg: Config, used: int, b: Bulk, open: bool, who: Who, h: Hold, st: QueueStep)
    requires QueueNext(cfg, used, b, open, who, h, st).Some?
    requires h.p.frames == 0 && CountsRequests(m)
    ensures var r := QueueNext(cfg, used, b, open, who, h, st).value;
            OutcomeTotal(m, r.out) + Total(m, r.bulk.queue) == Weight(m, h.p) + Total(m, b.queue)
  {
    hide Weight;
    hide Total;
    hide Downgrade;
    hide WithJson;
    hide Finish;
    TotalPush(m, b.queue, h.p);
    QueueWeights(m, cfg, h.p, if st.Serialize? then st.cap else 0);
  }

  /** The reservation of a parcel that is not yet encoded covers at least its uid. */
  predicate Spendable(h: Hold) {
    (h.at == AtSend || h.at == AtWait ==> h.p.held == 0) && (h.at == AtReserve ==> h.p.uidCap <= h.p.held)
    && (h.at == AtReserve || h.at == AtFallback ==> h.p.extra == 0)
  }

  /**
   The budget moves by exactly the change in what the parcel and the queue have reserved, and never beyond its limit.
   */
  lemma {:induction false} QueueKeepsLedger(
      cfg: Config, used: int, b: Bulk, open: bool, who: Who, h: Hold, st: QueueStep)
    requires Spendable(h) && QueueNext(cfg, used, b, open, who, h, st).Some?
    ensures var r := QueueNext(cfg, used, b, open, who, h, st).value;
            && r.used - used == OutcomeTotal(Reserved, r.out) + Total(Reserved, r.bulk.queue)
                                - Weight(Reserved, h.p) - Total(Reserved, b.queue)
            && (used <= cfg.limit ==> r.used <= cfg.limit)
  {
    TotalPush(Reserved, b.queue, h.p);
  }
}
