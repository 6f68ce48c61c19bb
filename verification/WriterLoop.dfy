/**
 The writer: it owns the write half of the socket and sends control messages before queued response
 bodies. Sends succeed, fail or time out at the will of the network.
 */
module WriterLoop {
  import opened Options
  import opened Bytes
  import opened Protocol
  import opened Parcels
  import opened BulkQueue
  import opened BusyAnswers

  const CONTROL_QUEUE_CAPACITY: nat := 32

  datatype CloseReason = ClientShutdown | HeartbeatTimeout | ServerEcho

  datatype Control =
    | Register
    | PingText
    | PingFrame
    | PongText
    | PongFrame
    | ReadyAnswer(uid: bytes)
    | Close(reason: CloseReason)

  datatype Frame = ControlFrame(m: Control) | BulkFrame(k: Key)

  datatype WriterPc = Idle | WritingControl(m: Control) | WritingBulk(p: Parcel) | Stopped(clean: bool)

  /**
   `queued` is the history of everything that entered the control queue, `started` of every frame handed to the sink.
   */
  datatype Writer = Writer(control: seq<Control>, controlOpen: bool, bulkOpen: bool, pc: WriterPc,
                           queued: seq<Control>, started: seq<Frame>)

  /** The register message is queued before the writer is spawned. */
  const NEW_WRITER: Writer := Writer([Register], true, true, Idle, [Register], [])

  datatype WriterStep = Poll | SendOk | SendFailed | AbortWriter

  /** What the writer sees of its senders: the session's ends, the actor's end of the bulk queue, an abort. */
  datatype WriterView = WriterView(senders: bool, actorAlive: bool, aborting: bool)

  datatype WriterResult = WriterResult(w: Writer, bulk: Bulk, lost: seq<Parcel>, used: int)

  /** The writer ends after `lost` met its fate; both receivers drop what is still queued. */
  function StopWriter(w: Writer, bulk: Bulk, clean: bool, why: Why, lost: seq<Parcel>, used: int): WriterResult {
    WriterResult(w.(pc := Stopped(clean), control := []), bulk.(queue := []),
                 lost + DropAll(bulk.queue, why), used - Total(Reserved, bulk.queue))
  }

  function TakeControl(w: Writer): Writer
    requires w.control != []
  {
    w.(control := w.control[1..], pc := WritingControl(w.control[0]), started := w.started
        + [ControlFrame(w.control[0])])
  }

  function StartFrame(p: Parcel): Parcel {
    p.(frames := p.frames + 1)
  }

  function TakeBulk(w: Writer, p: Parcel): Writer {
    w.(pc := WritingBulk(StartFrame(p)), started := w.started + [BulkFrame(KeyOf(p))])
  }

  /** One poll of the biased select: control first, a bulk entry only when control has nothing ready. */
  function PollNext(w: Writer, bulk: Bulk, v: WriterView, used: int): Option<WriterResult> {
    if w.controlOpen && w.control != [] then Some(WriterResult(TakeControl(w), bulk, [], used))
    else if w.controlOpen && !v.senders then
      Some(WriterResult(w.(controlOpen := false), bulk, [], used))
    else if w.bulkOpen && bulk.queue != [] then
      Some(WriterResult(TakeBulk(w, bulk.queue[0]), bulk.Pop(), [], used))
    else if w.bulkOpen && !v.senders && !v.actorAlive then
      Some(WriterResult(w.(bulkOpen := false), bulk, [], used))
    else if !w.controlOpen && !w.bulkOpen then
      Some(StopWriter(w, bulk, true, ConnectionEnded, [], used))
    else None
  }

  function WriterNext(w: Writer, bulk: Bulk, v: WriterView, used: int, st: WriterStep): Option<WriterResult> {
    match (w.pc, st)
    case (Idle, Poll) => PollNext(w, bulk, v, used)
    case (WritingControl(m), SendOk) =>
      if m.Close? then Some(StopWriter(w, bulk, true, ConnectionEnded, [], used))
      else Some(WriterResult(w.(pc := Idle), bulk, [], used))
    case (WritingControl(m), SendFailed) =>
      if m.Close? then Some(StopWriter(w, bulk, true, ConnectionEnded, [], used))
      else Some(StopWriter(w, bulk, false, WriterFailed, [], used))
    case (WritingBulk(p), SendOk) =>
      Some(WriterResult(w.(pc := Idle), bulk, [Finish(p, Written)], used - p.extra))
    case (WritingBulk(p), SendFailed) =>
      Some(StopWriter(w, bulk, false, WriterFailed, [Drop(p, WriterFailed)], used - p.extra))
    case (Idle, AbortWriter) =>
      if v.aborting then Some(StopWriter(w, bulk, false, ConnectionEnded, [], used)) else None
    case (WritingControl(_), AbortWriter) =>
      if v.aborting then Some(StopWriter(w, bulk, false, ConnectionEnded, [], used)) else None
    case (WritingBulk(p), AbortWriter) =>
      if v.aborting then
        Some(StopWriter(w, bulk, false, ConnectionEnded, [Drop(p, ConnectionEnded)], used - p.extra)) else None
    case _ => None
  }

  function WriterParcel(pc: WriterPc): Option<Parcel> {
    match pc
    case WritingBulk(p) => Some(p)
    case _ => None
  }

  // --------------------------------------------------------------- what it keeps

  predicate WritingOk(cfg: Config, pc: WriterPc) {
    pc.WritingBulk? ==>
      && LiveOk(cfg, pc.p) && pc.p.stage == Encoded && pc.p.frames == 1
      && cfg.jsonLen(pc.p.now) <= MAX_WS_MESSAGE_SIZE
  }

  lemma {:induction false} DroppedAreFinished(cfg: Config, q: seq<Parcel>, why: Why)
    requires AllQueued(cfg, q) && (why.WriterFailed? || why.ConnectionEnded?)
    ensures AllFinished(cfg, DropAll(q, why))
  {
  }

  lemma {:induction false} PollKeepsParcels(cfg: Config, w: Writer, bulk: Bulk, v: WriterView, used: int)
    requires w.pc.Idle? && AllQueued(cfg, bulk.queue) && PollNext(w, bulk, v, used).Some?
    ensures var r := PollNext(w, bulk, v, used).value;
            WritingOk(cfg, r.w.pc) && AllQueued(cfg, r.bulk.queue) && AllFinished(cfg, r.lost)
  {
    hide FinishedOk;
    hide StopWriter;
    StopWriterFinishes(cfg, w, bulk, true, ConnectionEnded, [], used);
  }

  lemma {:induction false} WrittenAreFinished(cfg: Config, p: Parcel)
    requires WritingOk(cfg, WritingBulk(p))
    ensures FinishedOk(cfg, Finish(p, Written)) && FinishedOk(cfg, Drop(p, WriterFailed))
    ensures FinishedOk(cfg, Drop(p, ConnectionEnded))
  {
  }

  lemma {:induction false} StopWriterFinishes(
      cfg: Config, w: Writer, bulk: Bulk, clean: bool, why: Why, lost: seq<Parcel>, used: int)
    requires AllQueued(cfg, bulk.queue) && AllFinished(cfg, lost) && (why.WriterFailed? || why.ConnectionEnded?)
    ensures var r := StopWriter(w, bulk, clean, why, lost, used);
            WritingOk(cfg, r.w.pc) && AllQueued(cfg, r.bulk.queue) && AllFinished(cfg, r.lost)
  {
    DroppedAreFinished(cfg, bulk.queue, why);
  }

  lemma {:induction false} SendEndKeepsParcels(
      cfg: Config, w: Writer, bulk: Bulk, v: WriterView, used: int, st: WriterStep)
    requires w.pc.WritingBulk? && WritingOk(cfg, w.pc) && AllQueued(cfg, bulk.queue)
    requires WriterNext(w, bulk, v, used, st).Some?
    ensures var r := WriterNext(w, bulk, v, used, st).value;
            WritingOk(cfg, r.w.pc) && AllQueued(cfg, r.bulk.queue) && AllFinished(cfg, r.lost)
  {
    var p := w.pc.p;
    WrittenAreFinished(cfg, p);
    hide FinishedOk;
    hide StopWriter;
    StopWriterFinishes(cfg, w, bulk, false, WriterFailed, [Drop(p, WriterFailed)], used - p.extra);
    StopWriterFinishes(cfg, w, bulk, false, ConnectionEnded, [Drop(p, ConnectionEnded)], used - p.extra);
  }

  lemma {:induction false} WriterKeepsParcels(
      cfg: Config, w: Writer, bulk: Bulk, v: WriterView, used: int, st: WriterStep)
    requires WritingOk(cfg, w.pc) && AllQueued(cfg, bulk.queue) && WriterNext(w, bulk, v, used, st).Some?
    ensures var r := WriterNext(w, bulk, v, used, st).value;
            WritingOk(cfg, r.w.pc) && AllQueued(cfg, r.bulk.queue) && AllFinished(cfg, r.lost)
  {
    if st.Poll? {
      PollKeepsParcels(cfg, w, bulk, v, used);
    } else if w.pc.WritingBulk? {
      SendEndKeepsParcels(cfg, w, bulk, v, used, st);
    } else {
      hide FinishedOk;
      hide StopWriter;
      StopWriterFinishes(cfg, w, bulk, true, ConnectionEnded, [], used);
      StopWriterFinishes(cfg, w, bulk, false, ConnectionEnded, [], used);
      StopWriterFinishes(cfg, w, bulk, false, WriterFailed, [], used);
    }
  }

  /** A slot freed by the writer goes to the first sender in line. */
  lemma {:induction false} WriterKeepsSlots(w: Writer, bulk: Bulk, v: WriterView, used: int, st: WriterStep)
    requires bulk.Ok() && WriterNext(w, bulk, v, used, st).Some?
    ensures var r := WriterNext(w, bulk, v, used, st).value;
            !r.w.pc.Stopped? ==> r.bulk.Ok() && (forall who :: r.bulk.Waits(who) == bulk.Waits(who))
  {
    hide StopWriter;
    hide Finish;
    if bulk.queue != [] {
      PopKeepsSlots(bulk);
    }
    assert WriterNext(w, bulk, v, used, st).value.w.pc.Stopped? || WriterNext(w, bulk, v, used, st).value.bulk == bulk
           || (bulk.queue != [] && WriterNext(w, bulk, v, used, st).value.bulk == bulk.Pop()) by {
      StopsStopped(w, bulk, used);
    }
    hide WriterNext;
  }

  lemma {:induction false} StopsStopped(w: Writer, bulk: Bulk, used: int)
    ensures forall clean, why, lost, u :: StopWriter(w, bulk, clean, why, lost, u).w.pc.Stopped?
  {
  }

  function BulkKeys(frames: seq<Frame>): seq<Key> {
    if frames == [] then []
    else
      var init, last := frames[..|frames| - 1], frames[|frames| - 1];
      BulkKeys(init) + (if last.BulkFrame? then [last.k] else [])
  }

  function Controls(frames: seq<Frame>): seq<Control> {
    if frames == [] then []
    else
      var init, last := frames[..|frames| - 1], frames[|frames| - 1];
      Controls(init) + (if last.ControlFrame? then [last.m] else [])
  }

  lemma {:induction false} FramePush(frames: seq<Frame>, f: Frame)
    ensures BulkKeys(frames + [f]) == BulkKeys(frames) + (if f.BulkFrame? then [f.k] else [])
    ensures Controls(frames + [f]) == Controls(frames) + (if f.ControlFrame? then [f.m] else [])
  {
    assert (frames + [f])[..|frames|] == frames;
  }

  function FramesCounted(m: Measure, w: Writer): nat {
    if OfFrames(m) then CountKeys(m, BulkKeys(w.started)) else 0
  }

  lemma {:induction false} CountStarted(m: Measure, frames: seq<Frame>, f: Frame)
    requires OfFrames(m)
    ensures CountKeys(m, BulkKeys(frames + [f])) ==
              CountKeys(m, BulkKeys(frames)) + if f.BulkFrame? then KeyWeight(m, f.k) else 0
  {
    FramePush(frames, f);
    if f.BulkFrame? {
      CountPush(m, BulkKeys(frames), Some(f.k));
    } else {
      assert BulkKeys(frames) + [] == BulkKeys(frames);
    }
  }

  lemma {:induction false} StopWriterConserves(
      m: Measure, w: Writer, bulk: Bulk, clean: bool, why: Why, lost: seq<Parcel>, used: int)
    requires CountsRequests(m)
    ensures var r := StopWriter(w, bulk, clean, why, lost, used);
            Total(m, r.bulk.queue) == 0 && Total(m, r.lost) == Total(m, lost) + Total(m, bulk.queue)
  {
    TotalDropAll(m, bulk.queue, why);
    TotalConcat(m, lost, DropAll(bulk.queue, why));
  }

  predicate HeadUnsent(bulk: Bulk) {
    bulk.queue != [] ==> bulk.queue[0].frames == 0
  }

  lemma {:induction false} TakeControlConserves(m: Measure, w: Writer)
    requires w.control != []
    ensures FramesCounted(m, TakeControl(w)) == FramesCounted(m, w) && WriterParcel(TakeControl(w).pc) == None
  {
    if OfFrames(m) {
      CountStarted(m, w.started, ControlFrame(w.control[0]));
    }
  }

  lemma {:induction false} TakeBulkConserves(m: Measure, w: Writer, p: Parcel)
    requires CountsRequests(m) && p.frames == 0
    ensures Weight(m, StartFrame(p)) + FramesCounted(m, w) == Weight(m, p) + FramesCounted(m, TakeBulk(w, p))
  {
    if OfFrames(m) {
      CountStarted(m, w.started, BulkFrame(KeyOf(p)));
    }
  }

  lemma {:induction false} PollConserves(m: Measure, w: Writer, bulk: Bulk, v: WriterView, used: int)
    requires PollNext(w, bulk, v, used).Some? && w.pc.Idle? && HeadUnsent(bulk) && CountsRequests(m)
    ensures var r := PollNext(w, bulk, v, used).value;
            Maybe(m, WriterParcel(r.w.pc)) + Total(m, r.bulk.queue) + Total(m, r.lost) + FramesCounted(m, w)
            == Total(m, bulk.queue) + FramesCounted(m, r.w)
  {
    hide Weight;
    hide StopWriter;
    FlagsDoNotCount(m, w);
    if w.controlOpen && w.control != [] {
      TakeControlConserves(m, w);
    } else if w.controlOpen && !v.senders {
    } else if w.bulkOpen && bulk.queue != [] {
      TakeBulkConserves(m, w, bulk.queue[0]);
    } else {
      StopWriterConserves(m, w, bulk, true, ConnectionEnded, [], used);
      StopKeepsStarted(w, bulk, true, ConnectionEnded, [], used);
    }
  }

  lemma {:induction false} FlagsDoNotCount(m: Measure, w: Writer)
    ensures FramesCounted(m, w.(controlOpen := false)) == FramesCounted(m, w.(bulkOpen := false)) == FramesCounted(m, w)
  {
  }

  lemma {:induction false} StopKeepsStarted(w: Writer, bulk: Bulk, clean: bool, why: Why, lost: seq<Parcel>, used: int)
    ensures var r := StopWriter(w, bulk, clean, why, lost, used);
            r.w.started == w.started
              && WriterParcel(r.w.pc) == None && forall m :: FramesCounted(m, r.w) == FramesCounted(m, w)
  {
  }

  lemma {:induction false} SendEndConserves(m: Measure, w: Writer, bulk: Bulk, v: WriterView, used: int, st: WriterStep)
    requires w.pc.WritingBulk? && WriterNext(w, bulk, v, used, st).Some? && CountsRequests(m)
    ensures var r := WriterNext(w, bulk, v, used, st).value;
            Maybe(m, WriterParcel(r.w.pc)) + Total(m, r.bulk.queue) + Total(m, r.lost) ==
              Weight(m, w.pc.p) + Total(m, bulk.queue)
            && r.w.started == w.started
  {
    hide Weight;
    hide Finish;
    var p := w.pc.p;
    match st {
      case SendOk => FinishKeepsWeight(m, p, Written);
      case SendFailed =>
        FinishKeepsWeight(m, p, Dropped(WriterFailed));
        StopWriterConserves(m, w, bulk, false, WriterFailed, [Drop(p, WriterFailed)], used - p.extra);
      case AbortWriter =>
        FinishKeepsWeight(m, p, Dropped(ConnectionEnded));
        StopWriterConserves(m, w, bulk, false, ConnectionEnded, [Drop(p, ConnectionEnded)], used - p.extra);
    }
  }

  lemma {:induction false} ControlEndConserves(
      m: Measure, w: Writer, bulk: Bulk, v: WriterView, used: int, st: WriterStep)
    requires !w.pc.WritingBulk? && !st.Poll? && WriterNext(w, bulk, v, used, st).Some? && CountsRequests(m)
    ensures var r := WriterNext(w, bulk, v, used, st).value;
            Maybe(m, WriterParcel(r.w.pc)) + Total(m, r.bulk.queue) + Total(m, r.lost) == Total(m, bulk.queue)
            && r.w.started == w.started
  {
    StopWriterConserves(m, w, bulk, true, ConnectionEnded, [], used);
    StopWriterConserves(m, w, bulk, false, ConnectionEnded, [], used);
    StopWriterConserves(m, w, bulk, false, WriterFailed, [], used);
  }

  /** No response is lost or duplicated by the writer, and every frame it starts is logged once. */
  lemma {:induction false} WriterConserves(m: Measure, w: Writer, bulk: Bulk, v: WriterView, used: int, st: WriterStep)
    requires HeadUnsent(bulk) && WriterNext(w, bulk, v, used, st).Some? && CountsRequests(m)
    ensures var r := WriterNext(w, bulk, v, used, st).value;
            Maybe(m, WriterParcel(r.w.pc)) + Total(m, r.bulk.queue) + Total(m, r.lost) + FramesCounted(m, w)
            == Maybe(m, WriterParcel(w.pc)) + Total(m, bulk.queue) + FramesCounted(m, r.w)
  {
    if st.Poll? {
      PollConserves(m, w, bulk, v, used);
    } else if w.pc.WritingBulk? {
      SendEndConserves(m, w, bulk, v, used, st);
    } else {
      ControlEndConserves(m, w, bulk, v, used, st);
    }
  }

  /** What a step moves in the budget is what it moves out of the writer and its queue. */
  predicate WriterLedger(w: Writer, bulk: Bulk, used: int, r: WriterResult) {
    && r.used - used == Maybe(Reserved, WriterParcel(r.w.pc)) + Total(Reserved, r.bulk.queue)
                        - Maybe(Reserved, WriterParcel(w.pc)) - Total(Reserved, bulk.queue)
    && r.used <= used
  }

  lemma {:induction false} PollKeepsLedger(w: Writer, bulk: Bulk, v: WriterView, used: int)
    requires w.pc.Idle? && PollNext(w, bulk, v, used).Some?
    ensures WriterLedger(w, bulk, used, PollNext(w, bulk, v, used).value)
  {
    hide DropAll;
  }

  lemma {:induction false} SendEndKeepsLedger(
      cfg: Config, w: Writer, bulk: Bulk, v: WriterView, used: int, st: WriterStep)
    requires WritingOk(cfg, w.pc) && !st.Poll? && WriterNext(w, bulk, v, used, st).Some?
    ensures WriterLedger(w, bulk, used, WriterNext(w, bulk, v, used, st).value)
  {
    hide DropAll;
    hide PollNext;
    hide Finish;
  }

  lemma {:induction false} WriterKeepsLedger(
      cfg: Config, w: Writer, bulk: Bulk, v: WriterView, used: int, st: WriterStep)
    requires WritingOk(cfg, w.pc) && WriterNext(w, bulk, v, used, st).Some?
    ensures WriterLedger(w, bulk, used, WriterNext(w, bulk, v, used, st).value)
  {
    hide WriterLedger;
    if st.Poll? {
      PollKeepsLedger(w, bulk, v, used);
    } else {
      SendEndKeepsLedger(cfg, w, bulk, v, used, st);
    }
  }
}
