/**
 Wire 3 posts first: a scrape's response is handed to the WebSocket only after its POST failed or could not be prepared,
 and with room in the budget the POST does go out, for every response.
 */
module ConnectionPosts {
  import opened Options
  import opened Bytes
  import opened Protocol
  import opened Parcels
  import opened BulkQueue
  import opened ScrapeTask
  import opened BusyAnswers
  import opened WriterLoop
  import opened Connection
  import opened ConnectionInvariant
  import opened ConnectionBooks
  import opened ConnectionRuns
  import opened ConnectionSafety

  /** The parcel is on its way to the WebSocket. */
  predicate OnWebSocketSide(c: Conn, p: Parcel) {
    || c.task == Some(Completing(Some(p)))
    || SlotParcel(c.slot) == Some(p)
    || SessionParcel(c.pc) == Some(p)
    || p in c.bulk.queue
    || WriterParcel(c.writer.pc) == Some(p)
  }

  /** On wire 3 no scrape comes near the WebSocket before its POST was attempted and failed, or refused. */
  lemma {:induction false} PostComesFirst(cfg: Config, s: State, p: Parcel)
    requires Reachable(cfg, s) && cfg.protocol == 3 && p.kind == Scrape
    requires OnWebSocketSide(s.c, p) || (p in AllParcels(s.c) && p.frames == 1)
    ensures p.failed
  {
    hide Inv;
    ReachableOk(cfg, s);
    ParcelsHold(cfg, s);
    AllHistoriesKept(cfg, s.c);
    hide AllParcels;
    hide LiveOk;
  }

  /** What the parcel remembers is what happened: its attempts are the POSTs logged for the request. */
  lemma {:induction false} AttemptsAreLogged(cfg: Config, s: State, p: Parcel)
    requires Reachable(cfg, s) && p in AllParcels(s.c)
    ensures p.tries == PostsOf(s.c, p.id) && p.frames == FramesOf(s.c, p.id)
  {
    hide Inv;
    hide Reachable;
    hide AllTotal;
    hide AllParcels;
    ReachableOk(cfg, s);
    BooksHold(cfg, s, Attempts(p.id));
    BooksHold(cfg, s, Frames(p.id));
    BooksHold(cfg, s, Requests(p.id));
    TotalLive(Attempts(p.id), s.c);
    TotalLive(Frames(p.id), s.c);
    TotalLive(Requests(p.id), s.c);
    var q := AllParcels(s.c);
    var i :| 0 <= i < |q| && q[i] == p;
    OnlyThisCounts(q, p.id, i);
  }

  /** The scrape of the first request, with its uid reserved and `bodyCap` bytes for a body. */
  function FirstScrape(uid: bytes, bodyCap: nat): Parcel {
    NewScrape(0, uid).(uidCap := |uid|, bodyCap := bodyCap, held := |uid| + bodyCap)
  }

  function FirstAnswer(r: ResourceResponse): Parcel {
    FirstScrape(r.uid, |r.body|).(stage := Answered, orig := r, now := r)
  }

  function Busily(t: Task): Conn {
    INIT.(next := 1, active := true, task := Some(t))
  }

  /** A step that only changes the task changes nothing else of the connection. */
  lemma {:induction false} TaskStays(cfg: Config, s: State, st: TaskStep, t: Task)
    requires s.c.task.Some?
    requires var r := TaskNext(cfg, s.used, s.c.task.value, TaskView(s.c), st);
             r.Some? && r == Becomes(t, r.value.used)
    ensures NextTask(cfg, s, st).Some? && NextTask(cfg, s, st).value.c == s.c.(task := Some(t))
  {
    hide TaskNext;
    assert s.c.done + [] == s.c.done && s.c.posted + [] == s.c.posted;
  }

  lemma {:induction false} RequestRuns(cfg: Config, uid: bytes)
    requires |uid| <= MAX_UID_SIZE && |uid| <= cfg.limit
    ensures Reachable(cfg, State(Busily(Fetching(FirstScrape(uid, 0))), |uid|))
  {
    var s := State(INIT, 0);
    assert Run(cfg, s, []) == Some(s);
    ReachableStep(cfg, s, SessionMoves(ReadRequest(uid, |uid|)));
    var s1 := Next(cfg, s, SessionMoves(ReadRequest(uid, |uid|))).value;
    hide Reachable;
    assert s1 == State(Busily(Calling(NewScrape(0, uid))), 0);
    ReachableStep(cfg, s1, TaskMoves(ReserveUid(|uid|)));
    TaskStays(cfg, s1, ReserveUid(|uid|), Fetching(FirstScrape(uid, 0)));
    assert Next(cfg, s1, TaskMoves(ReserveUid(|uid|))) == Some(State(Busily(Fetching(FirstScrape(uid, 0))), |uid|));
  }

  lemma {:induction false} CallRuns(cfg: Config, r: ResourceResponse)
    requires cfg.protocol == 3 && |r.uid| <= MAX_UID_SIZE && |r.body| <= MAX_BODY_SIZE
    requires |r.uid| + |r.body| <= cfg.limit
    ensures Reachable(cfg, State(Busily(Delivering(FirstAnswer(r))), |r.uid| + |r.body|))
  {
    RequestRuns(cfg, r.uid);
    hide Reachable;
    var grow, finish := TaskMoves(GrowBody(|r.body|)), TaskMoves(FetchOk(r.status, r.body));
    var s := State(Busily(Fetching(FirstScrape(r.uid, 0))), |r.uid|);
    var s1 := State(Busily(Fetching(FirstScrape(r.uid, |r.body|))), |r.uid| + |r.body|);
    TaskStays(cfg, s, grow.t, Fetching(FirstScrape(r.uid, |r.body|)));
    assert Next(cfg, s, grow) == Some(s1);
    ReachableStep(cfg, s, grow);
    TaskStays(cfg, s1, finish.t, Delivering(FirstAnswer(r)));
    assert Next(cfg, s1, finish) == Some(State(Busily(Delivering(FirstAnswer(r))), |r.uid| + |r.body|));
    ReachableStep(cfg, s1, finish);
  }

  /**
   Every answer can be posted: on wire 3, with room for the response and its form, an idle worker that gets a request
   reaches a state with exactly this POST under way, and when it is accepted, one in which the request is done, the
   completion is empty, and no byte is held and no frame was ever started.
   */
  lemma {:induction false} ScrapesArePosted(cfg: Config, r: ResourceResponse) returns (posting: State, accepted: State)
    requires cfg.protocol == 3 && |r.uid| <= MAX_UID_SIZE && |r.body| <= MAX_BODY_SIZE
    requires |r.uid| + |r.body| + cfg.formLen(r) <= cfg.limit
    ensures Reachable(cfg, posting) && posting.c.task.Some? && posting.c.task.value.PostingTask?
    ensures posting.c.posted == accepted.c.posted == [Key(0, r)]
    ensures Reachable(cfg, accepted) && accepted.c.task == Some(Completing(None)) && accepted.used == 0
    ensures |accepted.c.done| == 1 && accepted.c.done[0].id == 0 && accepted.c.done[0].fate == Accepted
    ensures accepted.c.writer.started == [] && accepted.c.next == 1
  {
    CallRuns(cfg, r);
    hide Reachable;
    var s := State(Busily(Delivering(FirstAnswer(r))), |r.uid| + |r.body|);
    var post := TaskMoves(PreparePost(cfg.formLen(r)));
    ReachableStep(cfg, s, post);
    posting := Next(cfg, s, post).value;
    ReachableStep(cfg, posting, TaskMoves(PostAccepted));
    accepted := Next(cfg, posting, TaskMoves(PostAccepted)).value;
  }
}
