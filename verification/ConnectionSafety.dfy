/**
 What holds in every reachable state of a connection: each request is in exactly one place, nothing is
 delivered twice except after a reported failure, memory is covered, and everything is gone at the end.
 */
module ConnectionSafety {
  import opened Options
  import opened Bytes
  import opened Protocol
  import opened Parcels
  import opened BulkQueue
  import opened ScrapeTask
  import opened BusyAnswers
  import opened WriterLoop
  import opened Connection
  import opened ConnectionInvariant
  import opened ConnectionBooks
  import opened ConnectionControl
  import opened WriterTrace
  import opened ConnectionRuns

  // ------------------------------------------------------- request conservation

  /** Every place a request can be in; `Settled` holds those that met their fate. */
  datatype Place = InTask | InSlot | InSession | InBusyQueue | InBusyPosts | InActor | InBulkQueue | InWriter | Settled

  function ParcelsAt(c: Conn, place: Place): seq<Parcel> {
    match place
    case InTask => OptionSeq(TaskParcel(c.task))
    case InSlot => OptionSeq(SlotParcel(c.slot))
    case InSession => OptionSeq(SessionParcel(c.pc))
    case InBusyQueue => c.actor.queue
    case InBusyPosts => c.actor.posts
    case InActor => OptionSeq(ActorParcel(c.actor.pc))
    case InBulkQueue => c.bulk.queue
    case InWriter => OptionSeq(WriterParcel(c.writer.pc))
    case Settled => c.done
  }

  /** How many times request `id` occurs at a place. */
  function CountAt(c: Conn, place: Place, id: nat): nat {
    Total(Requests(id), ParcelsAt(c, place))
  }

  lemma {:induction false} TotalOption(m: Measure, o: Option<Parcel>)
    ensures Total(m, OptionSeq(o)) == Maybe(m, o)
  {
    if o.Some? {
      TotalOne(m, o.value);
    }
  }

  lemma {:induction false} AllTotalByPlace(m: Measure, c: Conn)
    ensures AllTotal(m, c) ==
            Total(m, ParcelsAt(c, InTask)) + Total(m, ParcelsAt(c, InSlot)) + Total(m, ParcelsAt(c, InSession))
            + Total(m, ParcelsAt(c, InBusyQueue)) + Total(m, ParcelsAt(c, InBusyPosts))
                + Total(m, ParcelsAt(c, InActor))
            + Total(m, ParcelsAt(c, InBulkQueue)) + Total(m, ParcelsAt(c, InWriter)) + Total(m, ParcelsAt(c, Settled))
  {
    hide Weight;
    TotalOption(m, TaskParcel(c.task));
    TotalOption(m, SlotParcel(c.slot));
    TotalOption(m, SessionParcel(c.pc));
    TotalOption(m, ActorParcel(c.actor.pc));
    TotalOption(m, WriterParcel(c.writer.pc));
    hide Total;
    hide Maybe;
  }

  /**
   Request conservation: a request that was received is in exactly one place, once, and nowhere else;
   a request that was not received is nowhere.
   */
  lemma {:induction false} RequestConservation(cfg: Config, s: State, id: nat)
    requires Reachable(cfg, s)
    ensures id < s.c.next ==>
              exists place ::
                CountAt(s.c, place, id) == 1 && forall other :: other != place ==> CountAt(s.c, other, id) == 0
    ensures id >= s.c.next ==> forall place :: CountAt(s.c, place, id) == 0
  {
    hide Inv;
    hide CountAt;
    hide AllTotal;
    ReachableOk(cfg, s);
    BooksHold(cfg, s, Requests(id));
    SumOverPlaces(s.c, id);
    if id < s.c.next {
      ExactlyOne(s.c, id);
    } else {
      Nowhere(s.c, id);
    }
  }

  function CountEverywhere(c: Conn, id: nat): nat {
    CountAt(c, InTask, id) + CountAt(c, InSlot, id) + CountAt(c, InSession, id) + CountAt(c, InBusyQueue, id)
    + CountAt(c, InBusyPosts, id) + CountAt(c, InActor, id) + CountAt(c, InBulkQueue, id) + CountAt(c, InWriter, id)
    + CountAt(c, Settled, id)
  }

  lemma {:induction false} SumOverPlaces(c: Conn, id: nat)
    ensures CountEverywhere(c, id) == AllTotal(Requests(id), c)
  {
    AllTotalByPlace(Requests(id), c);
    hide AllTotal;
    hide Total;
  }

  lemma {:induction false} Nowhere(c: Conn, id: nat)
    requires CountEverywhere(c, id) == 0
    ensures forall place :: CountAt(c, place, id) == 0
  {
    hide CountAt;
    forall place ensures CountAt(c, place, id) == 0 {
      match place {
        case InTask => case InSlot => case InSession => case InBusyQueue => case InBusyPosts =>
        case InActor => case InBulkQueue => case InWriter => case Settled =>
      }
    }
  }

  lemma {:induction false} ExactlyOne(c: Conn, id: nat)
    requires CountEverywhere(c, id) == 1
    ensures exists place :: CountAt(c, place, id) == 1 && forall other :: other != place ==> CountAt(c, other, id) == 0
  {
    hide CountAt;
    var place :| CountAt(c, place, id) != 0;
    forall other | other != place ensures CountAt(c, other, id) == 0 {
    }
  }

  // -------------------------------------------------------- one list of parcels

  function LiveParcels(c: Conn): seq<Parcel> {
    OptionSeq(TaskParcel(c.task)) + (OptionSeq(SlotParcel(c.slot)) + (OptionSeq(SessionParcel(c.pc))
    + (c.actor.queue + (c.actor.posts
        + (OptionSeq(ActorParcel(c.actor.pc)) + (c.bulk.queue + OptionSeq(WriterParcel(c.writer.pc))))))))
  }

  function AllParcels(c: Conn): seq<Parcel> {
    LiveParcels(c) + c.done
  }

  lemma {:induction false} TotalLive(m: Measure, c: Conn)
    ensures Total(m, LiveParcels(c)) == LiveTotal(m, c)
    ensures Total(m, AllParcels(c)) == AllTotal(m, c)
  {
    hide Weight;
    var q8 := OptionSeq(WriterParcel(c.writer.pc));
    var q7 := c.bulk.queue + q8;
    var q6 := OptionSeq(ActorParcel(c.actor.pc)) + q7;
    var q5 := c.actor.posts + q6;
    var q4 := c.actor.queue + q5;
    var q3 := OptionSeq(SessionParcel(c.pc)) + q4;
    var q2 := OptionSeq(SlotParcel(c.slot)) + q3;
    TotalConcat(m, c.bulk.queue, q8);
    TotalConcat(m, OptionSeq(ActorParcel(c.actor.pc)), q7);
    TotalConcat(m, c.actor.posts, q6);
    TotalConcat(m, c.actor.queue, q5);
    TotalConcat(m, OptionSeq(SessionParcel(c.pc)), q4);
    TotalConcat(m, OptionSeq(SlotParcel(c.slot)), q3);
    TotalConcat(m, OptionSeq(TaskParcel(c.task)), q2);
    TotalConcat(m, LiveParcels(c), c.done);
    TotalOption(m, TaskParcel(c.task));
    TotalOption(m, SlotParcel(c.slot));
    TotalOption(m, SessionParcel(c.pc));
    TotalOption(m, ActorParcel(c.actor.pc));
    TotalOption(m, WriterParcel(c.writer.pc));
    hide Total;
    hide Maybe;
  }

  predicate AllLive(cfg: Config, q: seq<Parcel>) {
    forall i :: 0 <= i < |q| ==> LiveOk(cfg, q[i])
  }

  lemma {:induction false} LiveConcat(cfg: Config, a: seq<Parcel>, b: seq<Parcel>)
    requires AllLive(cfg, a) && AllLive(cfg, b)
    ensures AllLive(cfg, a + b)
  {
    hide LiveOk;
  }

  lemma {:induction false} PlacesAreLive(cfg: Config, c: Conn)
    requires ParcelsOk(cfg, c)
    ensures AllLive(cfg, OptionSeq(TaskParcel(c.task))) && AllLive(cfg, OptionSeq(SlotParcel(c.slot)))
    ensures AllLive(cfg, OptionSeq(SessionParcel(c.pc))) && AllLive(cfg, c.actor.queue) && AllLive(cfg, c.actor.posts)
    ensures AllLive(cfg, OptionSeq(ActorParcel(c.actor.pc))) && AllLive(cfg, c.bulk.queue)
    ensures AllLive(cfg, OptionSeq(WriterParcel(c.writer.pc)))
  {
    hide LiveOk;
  }

  lemma {:induction false} LiveParcelsOk(cfg: Config, c: Conn)
    requires ParcelsOk(cfg, c)
    ensures AllLive(cfg, LiveParcels(c))
  {
    PlacesAreLive(cfg, c);
    hide AllLive;
    hide ParcelsOk;
    var q8 := OptionSeq(WriterParcel(c.writer.pc));
    var q7 := c.bulk.queue + q8;
    var q6 := OptionSeq(ActorParcel(c.actor.pc)) + q7;
    var q5 := c.actor.posts + q6;
    var q4 := c.actor.queue + q5;
    var q3 := OptionSeq(SessionParcel(c.pc)) + q4;
    LiveConcat(cfg, c.bulk.queue, q8);
    LiveConcat(cfg, OptionSeq(ActorParcel(c.actor.pc)), q7);
    LiveConcat(cfg, c.actor.posts, q6);
    LiveConcat(cfg, c.actor.queue, q5);
    LiveConcat(cfg, OptionSeq(SessionParcel(c.pc)), q4);
    LiveConcat(cfg, OptionSeq(SlotParcel(c.slot)), q3);
    LiveConcat(cfg, OptionSeq(TaskParcel(c.task)), OptionSeq(SlotParcel(c.slot)) + q3);
  }

  predicate HistoryKept(cfg: Config, p: Parcel) {
    HistoryOk(cfg, p) && Faithful(p) && WithinLimits(p)
  }

  lemma {:induction false} AllHistoriesKept(cfg: Config, c: Conn)
    requires ParcelsOk(cfg, c)
    ensures forall i :: 0 <= i < |AllParcels(c)| ==> HistoryKept(cfg, AllParcels(c)[i])
  {
    LiveParcelsOk(cfg, c);
    hide LiveParcels;
  }

  // --------------------------------------------------------- bounded duplication

  lemma {:induction false} FindWeight(m: Measure, q: seq<Parcel>) returns (i: nat)
    requires Total(m, q) > 0
    ensures i < |q| && Weight(m, q[i]) > 0
  {
    if Weight(m, q[0]) > 0 {
      i := 0;
    } else {
      i := FindWeight(m, q[1..]);
      i := i + 1;
    }
  }

  lemma {:induction false} OnlyOne(q: seq<Parcel>, id: nat, i: nat, j: nat)
    requires Total(Requests(id), q) <= 1 && i < |q| && j < |q| && q[i].id == q[j].id == id
    ensures i == j
  {
    if i < j {
      TotalRemoveAt(Requests(id), q, i);
      TotalOfMember(Requests(id), RemoveAt(q, i), j - 1);
    } else if j < i {
      TotalRemoveAt(Requests(id), q, j);
      TotalOfMember(Requests(id), RemoveAt(q, j), i - 1);
    }
  }

  function PostsOf(c: Conn, id: nat): nat {
    CountKeys(Attempts(id), c.posted)
  }

  function FramesOf(c: Conn, id: nat): nat {
    CountKeys(Frames(id), BulkKeys(c.writer.started))
  }

  lemma {:induction false} ParcelOf(cfg: Config, s: State, id: nat) returns (p: Parcel)
    requires Inv(cfg, s) && PostsOf(s.c, id) + FramesOf(s.c, id) > 0
    ensures p in AllParcels(s.c) && p.id == id && HistoryKept(cfg, p)
    ensures PostsOf(s.c, id) == p.tries && FramesOf(s.c, id) == p.frames
  {
    hide Inv;
    hide AllTotal;
    hide AllParcels;
    hide ParcelsOk;
    hide HistoryKept;
    var c := s.c;
    var q := AllParcels(c);
    ParcelsHold(cfg, s);
    AllHistoriesKept(cfg, c);
    BooksHold(cfg, s, Attempts(id));
    BooksHold(cfg, s, Frames(id));
    BooksHold(cfg, s, Requests(id));
    TotalLive(Attempts(id), c);
    TotalLive(Frames(id), c);
    TotalLive(Requests(id), c);
    var i: nat;
    if PostsOf(c, id) > 0 {
      i := FindWeight(Attempts(id), q);
    } else {
      i := FindWeight(Frames(id), q);
    }
    p := q[i];
    OnlyThisCounts(q, id, i);
  }

  /** With one parcel per request, what the request did is what that parcel did. */
  lemma {:induction false} OnlyThisCounts(q: seq<Parcel>, id: nat, i: nat)
    requires Total(Requests(id), q) <= 1 && i < |q| && q[i].id == id
    ensures Total(Attempts(id), q) == q[i].tries && Total(Frames(id), q) == q[i].frames
  {
    var rest := RemoveAt(q, i);
    TotalRemoveAt(Requests(id), q, i);
    TotalRemoveAt(Attempts(id), q, i);
    TotalRemoveAt(Frames(id), q, i);
    NoneCounts(rest, id);
  }

  lemma {:induction false} NoneCounts(q: seq<Parcel>, id: nat)
    requires Total(Requests(id), q) == 0
    ensures Total(Attempts(id), q) == 0 && Total(Frames(id), q) == 0
  {
    if q != [] {
      NoneCounts(q[1..], id);
    }
  }

  /**
   Bounded duplication: a request causes at most one POST and at most one WebSocket frame, both only
   when the POST reported failure, and no frame when a large scrape's POST timed out. Wires 1 and 2 never post.
   */
  lemma {:induction false} BoundedDuplication(cfg: Config, s: State, id: nat)
    requires Reachable(cfg, s)
    ensures PostsOf(s.c, id) <= 1 && FramesOf(s.c, id) <= 1
    ensures PostsOf(s.c, id) == 1 && FramesOf(s.c, id) == 1 ==>
              exists p :: p in AllParcels(s.c) && p.id == id && p.failed && !TooLateToResend(p)
    ensures forall p :: p in AllParcels(s.c) && p.id == id && TooLateToResend(p) ==> FramesOf(s.c, id) == 0
    ensures cfg.protocol != 3 ==> s.c.posted == []
  {
    ReachableOk(cfg, s);
    if PostsOf(s.c, id) + FramesOf(s.c, id) > 0 {
      var p := ParcelOf(cfg, s, id);
      assert p in AllParcels(s.c);
      forall p' | p' in AllParcels(s.c) && p'.id == id && TooLateToResend(p') ensures FramesOf(s.c, id) == 0 {
        OneParcel(cfg, s, p, p');
      }
    }
  }

  /** A request has only one parcel. */
  lemma {:induction false} OneParcel(cfg: Config, s: State, p: Parcel, p': Parcel)
    requires Inv(cfg, s) && p in AllParcels(s.c) && p' in AllParcels(s.c) && p.id == p'.id
    ensures p == p'
  {
    hide Inv;
    hide AllParcels;
    hide AllTotal;
    hide Total;
    BooksHold(cfg, s, Requests(p.id));
    TotalLive(Requests(p.id), s.c);
    var q := AllParcels(s.c);
    var i :| 0 <= i < |q| && q[i] == p;
    var j :| 0 <= j < |q| && q[j] == p';
    OnlyOne(q, p.id, i, j);
  }

  lemma {:induction false} LoggedKeyCounts(m: Measure, keys: seq<Key>, k: Key)
    requires k in keys && (m == PostedAs(k) || m == FramedAs(k))
    ensures CountKeys(m, keys) > 0
  {
    if keys[|keys| - 1] != k {
      assert k in keys[..|keys| - 1];
      LoggedKeyCounts(m, keys[..|keys| - 1], k);
    }
  }

  lemma {:induction false} ParcelOfKey(cfg: Config, s: State, m: Measure, k: Key) returns (p: Parcel)
    requires Inv(cfg, s) && (m == PostedAs(k) || m == FramedAs(k))
    requires k in (if m == PostedAs(k) then s.c.posted else BulkKeys(s.c.writer.started))
    ensures p in AllParcels(s.c) && p.id == k.id && Faithful(p)
    ensures if m == PostedAs(k) then p.orig == k.content else p.now == k.content
  {
    AllHistoriesKept(cfg, s.c);
    BooksHold(cfg, s, m);
    TotalLive(m, s.c);
    hide Inv;
    hide AllTotal;
    hide AllParcels;
    LoggedKeyCounts(m, if m == PostedAs(k) then s.c.posted else BulkKeys(s.c.writer.started), k);
    var i := FindWeight(m, AllParcels(s.c));
    p := AllParcels(s.c)[i];
  }

  /**
   When a request was answered over both transports, the frame repeats the POST or carries the error that replaced it.
   */
  lemma {:induction false} TransportsAgree(cfg: Config, s: State, post: Key, frame: Key)
    requires Reachable(cfg, s)
    requires post in s.c.posted && frame in BulkKeys(s.c.writer.started) && post.id == frame.id
    ensures frame.content == post.content || frame.content == ErrorFor(post.content.uid)
  {
    ReachableOk(cfg, s);
    var p := ParcelOfKey(cfg, s, PostedAs(post), post);
    var p' := ParcelOfKey(cfg, s, FramedAs(frame), frame);
    OneParcel(cfg, s, p, p');
  }

  // --------------------------------------------------------------------- memory

  lemma {:induction false} CoveredBytes(cfg: Config, q: seq<Parcel>)
    requires AllLive(cfg, q)
    ensures Total(Capacity, q) <= Total(Reserved, q)
    ensures (forall i :: 0 <= i < |q| ==> !q[i].stage.Serializing?) ==> Total(Capacity, q) == Total(Reserved, q)
  {
    if q != [] {
      assert LiveOk(cfg, q[0]);
      CoveredBytes(cfg, q[1..]);
    }
  }

  /**
   Buffer coverage: the capacities of all live buffers are covered by reservations, which are within the
   budget; they are equal except for JSON that is reserved but not yet allocated.
   */
  lemma {:induction false} BufferCoverage(cfg: Config, s: State)
    requires Reachable(cfg, s)
    ensures LiveTotal(Capacity, s.c) <= LiveTotal(Reserved, s.c) <= s.used <= cfg.limit
    ensures (forall i :: 0 <= i < |LiveParcels(s.c)| ==> !LiveParcels(s.c)[i].stage.Serializing?) ==>
              LiveTotal(Capacity, s.c) == LiveTotal(Reserved, s.c)
    ensures forall i :: 0 <= i < |LiveParcels(s.c)| ==>
              Covered(cfg, LiveParcels(s.c)[i]) && Fits(cfg, LiveParcels(s.c)[i])
  {
    ReachableOk(cfg, s);
    LiveParcelsOk(cfg, s.c);
    CoveredBytes(cfg, LiveParcels(s.c));
    TotalLive(Capacity, s.c);
    TotalLive(Reserved, s.c);
    hide LiveParcels;
    hide LiveTotal;
  }

  /** Bounded footprint: whatever the server sends, a connection never holds more than 23 response objects. */
  lemma {:induction false} BoundedFootprint(cfg: Config, s: State)
    requires Reachable(cfg, s)
    ensures |LiveParcels(s.c)| <= 23
    ensures |s.c.actor.posts| <= 4 && |s.c.actor.queue| <= 8 && |s.c.bulk.queue| <= 8 && |s.c.writer.control| <= 32
  {
    ReachableOk(cfg, s);
    ControlHolds(cfg, s);
    hide Inv;
    AtMostTwo(s.c);
    hide ScrapeOk;
    hide SlotsOk;
    hide PhaseOk;
  }

  lemma {:induction false} AtMostTwo(c: Conn)
    requires ScrapeOk(c)
    ensures |OptionSeq(TaskParcel(c.task))| + |OptionSeq(SlotParcel(c.slot))| + |OptionSeq(SessionParcel(c.pc))| <= 2
  {
  }

  /** Everything is gone when `run_connection` returns, whatever made it return: the budget is what the others hold. */
  lemma {:induction false} NothingLeftBehind(cfg: Config, s: State)
    requires Reachable(cfg, s) && s.c.pc.Returned?
    ensures s.c.exit.Some? && s.c.task.None? && !WriterAlive(s.c) && !ActorAlive(s.c)
    ensures LiveParcels(s.c) == [] && LiveTotal(Reserved, s.c) == 0
  {
    ReachableOk(cfg, s);
    ControlHolds(cfg, s);
    hide Inv;
    TotalLive(Reserved, s.c);
  }

  /** The steps of a connection never touch what others have reserved, so on return the budget is exactly theirs. */
  lemma {:induction false} OthersUntouched(cfg: Config, s: State, steps: seq<Step>)
    requires Inv(cfg, s) && Run(cfg, s, OwnEvents(steps)).Some?
    ensures var s' := Run(cfg, s, OwnEvents(steps)).value;
            s'.used - LiveTotal(Reserved, s'.c) == s.used - LiveTotal(Reserved, s.c)
    decreases |steps|
  {
    hide Inv;
    hide Next;
    if steps != [] {
      StepKeepsInv(cfg, s, steps[0]);
      assert OwnEvents(steps)[1..] == OwnEvents(steps[1..]);
      OthersUntouched(cfg, Next(cfg, s, steps[0]).value, steps[1..]);
    }
  }

  // ---------------------------------------------------------------- one scrape

  /**
   One scrape at a time: a full completion slot belongs to the active scrape, whose task has nothing more
   to send; a task that is about to send its completion finds the slot free; an idle session has no task.
   */
  lemma {:induction false} OneScrape(cfg: Config, s: State)
    requires Reachable(cfg, s)
    ensures s.c.slot.Some? ==> s.c.active && TaskIdle(s.c)
    ensures s.c.task.Some? && s.c.task.value.Completing? ==> NextTask(cfg, s, SendCompletion).Some?
    ensures s.c.pc.Select? && !s.c.active ==> s.c.task.None? && s.c.slot.None?
  {
    ReachableOk(cfg, s);
    ControlHolds(cfg, s);
    hide Inv;
  }

  /** A request is answered with a 503 exactly when it arrives while a scrape is held as active. */
  lemma {:induction false} BusyOnlyWhileScraping(cfg: Config, s: State, uid: bytes, uidCap: nat)
    requires Reachable(cfg, s) && s.c.pc.Select? && |uid| <= MAX_UID_SIZE && |uid| <= uidCap
    ensures var c' := ReceiveRequest(cfg, s, uid, uidCap).c;
            && (s.c.active <==> exists p :: p in AllParcels(c') && p.id == s.c.next && p.kind == Busy)
            && (s.c.active ==> c'.task == s.c.task && c'.slot == s.c.slot && (s.c.slot.Some? || !TaskIdle(s.c)))
            && (!s.c.active ==> c'.task == Some(Calling(NewScrape(s.c.next, uid))))
  {
    hide Inv;
    hide AllParcels;
    ReachableOk(cfg, s);
    ControlHolds(cfg, s);
    var c' := ReceiveRequest(cfg, s, uid, uidCap).c;
    if s.c.active {
      NewParcelIsIn(cfg, s, uid, uidCap);
      RequestLeavesScrape(cfg, s, uid, uidCap);
    } else {
      forall q | q in AllParcels(c') && q.id == s.c.next ensures q.kind == Scrape {
        EarlierIdsOnly(cfg, s, q, uid);
      }
    }
  }

  lemma {:induction false} RequestLeavesScrape(cfg: Config, s: State, uid: bytes, uidCap: nat)
    requires s.c.pc.Select? && s.c.active
    ensures var c' := ReceiveRequest(cfg, s, uid, uidCap).c; c'.task == s.c.task && c'.slot == s.c.slot
  {
  }

  lemma {:induction false} NewParcelIsIn(cfg: Config, s: State, uid: bytes, uidCap: nat)
    requires s.c.pc.Select? && s.c.active
    ensures var c' := ReceiveRequest(cfg, s, uid, uidCap).c;
            exists p :: p in AllParcels(c') && p.id == s.c.next && p.kind == Busy
  {
    var c' := ReceiveRequest(cfg, s, uid, uidCap).c;
    var p := NewBusy(s.c.next, uid, uidCap);
    if s.used + uidCap <= cfg.limit {
      if c'.pc.Queueing? {
        assert p in OptionSeq(SessionParcel(c'.pc));
      } else {
        assert c'.actor.queue[|s.c.actor.queue|] == p;
        assert p in c'.actor.queue;
      }
      assert p in AllParcels(c');
    } else {
      assert Drop(p, MemoryRefused) in c'.done;
      assert Drop(p, MemoryRefused) in AllParcels(c');
    }
  }

  lemma {:induction false} AddedScrape(c: Conn, p: Parcel)
    requires c.task.None?
    ensures AllParcels(c.(next := c.next + 1, active := true, task := Some(Calling(p)))) == [p] + AllParcels(c)
  {
    var rest := LiveParcels(c);
    var c' := c.(next := c.next + 1, active := true, task := Some(Calling(p)));
    assert LiveParcels(c') == [p] + rest;
    assert ([p] + rest) + c.done == [p] + (rest + c.done);
  }

  lemma {:induction false} IdsAreReceived(cfg: Config, s: State, q: Parcel)
    requires Inv(cfg, s) && q in AllParcels(s.c)
    ensures q.id < s.c.next
  {
    hide Inv;
    hide AllTotal;
    hide AllParcels;
    BooksHold(cfg, s, Requests(q.id));
    TotalLive(Requests(q.id), s.c);
    var i :| 0 <= i < |AllParcels(s.c)| && AllParcels(s.c)[i] == q;
    TotalOfMember(Requests(q.id), AllParcels(s.c), i);
  }

  lemma {:induction false} EarlierIdsOnly(cfg: Config, s: State, q: Parcel, uid: bytes)
    requires Inv(cfg, s) && s.c.task.None? && q.id == s.c.next
    requires q in AllParcels(s.c.(next := s.c.next + 1, active := true,
                task := Some(Calling(NewScrape(s.c.next, uid)))))
    ensures q == NewScrape(s.c.next, uid)
  {
    hide Inv;
    hide AllParcels;
    AddedScrape(s.c, NewScrape(s.c.next, uid));
    if q in AllParcels(s.c) {
      IdsAreReceived(cfg, s, q);
    }
  }
}
