/**
 What the server sees of one connection, in every reachable state: which frames, in which order, and what a drained
 writer has sent.
 */
module ConnectionFrames {
  import opened Options
  import opened Protocol
  import opened Parcels
  import opened BulkQueue
  import opened ScrapeTask
  import opened BusyAnswers
  import opened WriterLoop
  import opened Connection
  import opened ConnectionInvariant
  import opened ConnectionControl
  import opened WriterTrace
  import opened ConnectionRuns
  import opened ConnectionSafety

  lemma {:induction false} TraceHolds(cfg: Config, s: State)
    requires Inv(cfg, s)
    ensures TraceOk(s.c) && ParcelsOk(cfg, s.c)
  {
  }

  /**
   The frames on the wire interleave the control messages and the responses, each in the order they were
   queued; the register message comes first, and nothing follows a close frame.
   */
  lemma {:induction false} FramesInOrder(cfg: Config, s: State)
    requires Reachable(cfg, s)
    ensures var w := s.c.writer;
            && Controls(w.started) <= w.queued && BulkKeys(w.started) <= s.c.bulk.pushed
            && (w.started != [] ==> w.started[0] == ControlFrame(Register))
            && (forall i :: 0 <= i < |w.started| - 1 ==> !IsClose(w.started[i]))
  {
    hide Inv;
    hide Controls;
    hide BulkKeys;
    ReachableOk(cfg, s);
    TraceHolds(cfg, s);
  }

  /** A response starts only when no control message waits. */
  lemma {:induction false} ControlGoesFirst(cfg: Config, s: State, st: WriterStep)
    requires Reachable(cfg, s) && !s.c.writer.pc.WritingBulk? && NextWriter(s, st).Some?
    requires NextWriter(s, st).value.c.writer.pc.WritingBulk?
    ensures s.c.writer.control == []
  {
    hide Inv;
    ReachableOk(cfg, s);
    TraceHolds(cfg, s);
  }

  /** A close frame is the last thing the writer does: it never idles again. */
  lemma {:induction false} CloseEndsWriter(cfg: Config, s: State)
    requires Reachable(cfg, s) && s.c.writer.started != [] && IsClose(s.c.writer.started[|s.c.writer.started| - 1])
    ensures !s.c.writer.pc.Idle? && (forall st :: NextWriter(s, st).Some? ==> !WriterAlive(NextWriter(s, st).value.c))
  {
    hide Inv;
    ReachableOk(cfg, s);
    TraceHolds(cfg, s);
  }

  /** A parcel whose frame was started is either being written or has met its fate. */
  lemma {:induction false} FramedParcels(cfg: Config, c: Conn, p: Parcel)
    requires ParcelsOk(cfg, c) && p in LiveParcels(c) && p.frames > 0
    ensures c.writer.pc == WritingBulk(p)
  {
    hide Covered;
    hide Fits;
    hide WithinLimits;
    hide Faithful;
    ActorHoldsNoFrame(cfg, c.actor);
    WaitingHoldNoFrame(cfg, c);
    hide ParcelsOk;
  }

  lemma {:induction false} WaitingHoldNoFrame(cfg: Config, c: Conn)
    requires ParcelsOk(cfg, c)
    ensures Unframed(TaskParcel(c.task)) && Unframed(SlotParcel(c.slot)) && Unframed(SessionParcel(c.pc))
    ensures NoFrames(c.bulk.queue)
  {
    hide Covered;
    hide Fits;
    hide WithinLimits;
    hide Faithful;
  }

  /**
   A writer that ended because both of its inputs were closed, without a close frame and without a failed send,
   has sent everything: every control message, and every response that ever entered the bulk queue.
   */
  lemma {:induction false} DrainedMeansWritten(cfg: Config, s: State, k: Key)
    requires Reachable(cfg, s) && Drained(s.c.writer) && k in s.c.bulk.pushed
    ensures Controls(s.c.writer.started) == s.c.writer.queued && BulkKeys(s.c.writer.started) == s.c.bulk.pushed
    ensures exists p :: p in s.c.done && KeyOf(p) == k && p.fate == Written
  {
    hide Inv;
    hide Controls;
    hide BulkKeys;
    ReachableOk(cfg, s);
    TraceHolds(cfg, s);
    var p := FramedParcelOfKey(cfg, s, k);
    if p !in s.c.done {
      FramedParcels(cfg, s.c, p);
    }
  }

  lemma {:induction false} FramedParcelOfKey(cfg: Config, s: State, k: Key) returns (p: Parcel)
    requires Inv(cfg, s) && k in BulkKeys(s.c.writer.started)
    ensures p in AllParcels(s.c) && KeyOf(p) == k && p.frames == 1
  {
    AllHistoriesKept(cfg, s.c);
    BooksHold(cfg, s, FramedAs(k));
    TotalLive(FramedAs(k), s.c);
    hide Inv;
    hide AllTotal;
    hide AllParcels;
    LoggedKeyCounts(FramedAs(k), BulkKeys(s.c.writer.started), k);
    var i := FindWeight(FramedAs(k), AllParcels(s.c));
    p := AllParcels(s.c)[i];
  }

  /**
   What the frames say: every response frame carries the answer to a request that was received, either as it was
   produced or replaced by the error for the same uid, and decodes to exactly that.
   */
  lemma {:induction false} FramesAreFaithful(cfg: Config, s: State, k: Key)
    requires Reachable(cfg, s) && k in BulkKeys(s.c.writer.started)
    ensures k.id < s.c.next && DecodeResponse(EncodeResponse(k.content)) == Some(k.content)
    ensures exists p :: p in AllParcels(s.c)
                && p.id == k.id && (k.content == p.orig || k.content == ErrorFor(p.orig.uid))
  {
    hide Inv;
    hide BulkKeys;
    hide AllParcels;
    hide EncodeResponse;
    hide DecodeResponse;
    ReachableOk(cfg, s);
    var p := ParcelOfKey(cfg, s, FramedAs(k), k);
    IdsAreReceived(cfg, s, p);
    JsonRoundTrip(k.content);
  }

  /** The frame being written is within the message limit and covered by its reservation. */
  lemma {:induction false} FrameWithinLimit(cfg: Config, s: State)
    requires Reachable(cfg, s) && s.c.writer.pc.WritingBulk?
    ensures var p := s.c.writer.pc.p;
            && cfg.jsonLen(p.now) <= MAX_WS_MESSAGE_SIZE && cfg.jsonLen(p.now) <= p.encCap == p.extra
            && p.held == p.uidCap == p.bodyCap == 0
  {
    hide Inv;
    ReachableOk(cfg, s);
    TraceHolds(cfg, s);
    hide LiveTotal;
  }

  /** The control queue takes another message. */
  predicate Room(c: Conn) {
    WriterAlive(c) && |c.writer.control| < CONTROL_QUEUE_CAPACITY
  }

  /**
   A text message never ends the session by itself. An identifier that is too long changes nothing; a ping is answered
   with a pong, and a `ready` message with the same uid by an idle worker on wire 2 or 3, if there is room; a valid
   request, and nothing else, is taken as a request.
   */
  lemma {:induction false} TextIsHandled(cfg: Config, s: State, m: IncomingMessage, uidCap: nat)
    requires s.c.pc.Select? && (m.Request? ==> |m.uid| <= uidCap)
    ensures NextSession(cfg, s, TextStep(m, uidCap)).Some?
    ensures var c, c' := s.c, NextSession(cfg, s, TextStep(m, uidCap)).value.c;
            var answer := if m.Ping? && Room(c) then [PongText]
                          else if m.Ready? && |m.uid| <= MAX_UID_SIZE
                            && cfg.protocol >= 2 && !c.active && Room(c) then [ReadyAnswer(m.uid)]
                          else [];
            && !RunOver(c'.pc) && c'.writer.queued == c.writer.queued + answer
            && (c'.next == c.next || c'.next == c.next + 1)
            && (c'.next == c.next + 1 <==> m.Request? && |m.uid| <= MAX_UID_SIZE && |m.resource| <= MAX_RESOURCE_SIZE)
            && (c'.next == c.next && answer == [] ==> c' == c)
  {
    assert s.c.writer.queued + [] == s.c.writer.queued;
  }
}
