/**
 The task spawned for one scrape: the exporter call, for wire 3 the response POST, then the
 completion send. Exporter, POST endpoint and allocator are adversarial.
 */
module ScrapeTask {
  import opened Options
  import opened Bytes
  import opened Protocol
  import opened FormEncoding
  import opened Parcels
  import opened BulkQueue

  datatype Task =
    | Calling(p: Parcel)      // nothing reserved yet
    | Fetching(p: Parcel)     // exporter call in progress
    | Delivering(p: Parcel)   // about to prepare the POST
    | PostingTask(p: Parcel)  // POST in flight
    | Completing(out: Option<Parcel>)
    | Sent                    // completion sent, not yet joined

  datatype TaskStep =
    | ReserveUid(uidCap: nat)
    | UnknownResource
    | GrowBody(n: nat)
    | FetchOk(status: u16, body: bytes)
    | FetchFailed
    | PreparePost(cap: nat)
    | RefuseHeader          // an access header cannot be encoded; the form is dropped
    | PostAccepted
    | PostFailed(timedOut: bool)
    | SendCompletion
    | AbortTask

  /**
   What the scrape task sees of the session: the completion receiver is gone, the slot is free, it is being aborted.
   */
  datatype View = View(over: bool, slotFree: bool, aborting: bool)

  /**
   `sent` is what went into the completion slot, `lost` a parcel that met its fate, `posted` a POST handed to the
   client.
   */
  datatype TaskResult = TaskResult(task: Option<Task>, sent: Option<Option<Parcel>>, lost: Option<Parcel>,
      posted: Option<Key>, used: int)

  function Becomes(t: Task, used: int): Option<TaskResult> {
    Some(TaskResult(Some(t), None, None, None, used))
  }

  function Answer(p: Parcel, r: ResourceResponse, bodyCap: nat): Parcel {
    p.(stage := Answered, orig := r, now := r, bodyCap := bodyCap, held := p.uidCap + bodyCap)
  }

  /** After `call_resource`: wire 3 posts the response, older wires complete with it. */
  function AfterCall(cfg: Config, p: Parcel): Task {
    if cfg.protocol == 3 then Delivering(p) else Completing(Some(p))
  }

  function TaskNext(cfg: Config, used: int, t: Task, v: View, st: TaskStep): Option<TaskResult> {
    match (t, st)
    case (Calling(p), ReserveUid(uidCap)) =>
      if uidCap < |p.now.uid| then None
      else if used + uidCap <= cfg.limit then Becomes(Fetching(p.(uidCap := uidCap, held := uidCap)), used + uidCap)
      else Some(TaskResult(Some(Completing(None)), None, Some(Drop(p, MemoryRefused)), None, used))
    case (Fetching(p), UnknownResource) =>
      if p.bodyCap != 0 then None
      else if used + |NO_SUCH_RESOURCE| <= cfg.limit then
        Becomes(AfterCall(cfg, Answer(p, ResourceResponse(p.now.uid, 404, NO_SUCH_RESOURCE), |NO_SUCH_RESOURCE|)),
                used + |NO_SUCH_RESOURCE|)
      else Becomes(AfterCall(cfg, Answer(p, ErrorFor(p.now.uid), 0)), used)
    case (Fetching(p), GrowBody(n)) =>
      if used + n > cfg.limit then None
      else Becomes(Fetching(p.(bodyCap := p.bodyCap + n, held := p.held + n)), used + n)
    case (Fetching(p), FetchOk(status, body)) =>
      if |body| > p.bodyCap || |body| > MAX_BODY_SIZE then None
      else Becomes(AfterCall(cfg, Answer(p, ResourceResponse(p.now.uid, status, body), p.bodyCap)), used)
    case (Fetching(p), FetchFailed) =>
      Becomes(AfterCall(cfg, Answer(p, ErrorFor(p.now.uid), 0)), used - p.bodyCap)
    case (Delivering(p), PreparePost(cap)) =>
      if cap < cfg.formLen(p.now) then None
      else if used + cap <= cfg.limit then
        Some(TaskResult(Some(PostingTask(AttemptPost(p, cap))), None, None, Some(KeyOf(p)), used + cap))
      else Becomes(Completing(Some(FailPost(p, false))), used)
    case (Delivering(p), RefuseHeader) => Becomes(Completing(Some(FailPost(p, false))), used)
    case (PostingTask(p), PostAccepted) =>
      Some(TaskResult(Some(Completing(None)), None, Some(Finish(p, Accepted)), None, used - p.held - p.extra))
    case (PostingTask(p), PostFailed(timedOut)) =>
      if timedOut && |p.now.body| > FALLBACK_AFTER_TIMEOUT_LIMIT then
        Some(TaskResult(Some(Completing(None)), None, Some(Drop(FailPost(p, true), LargeAfterTimeout)), None,
            used - p.held - p.extra))
      else Becomes(Completing(Some(FailPost(p, timedOut))), used - p.extra)
    case (Completing(out), SendCompletion) =>
      if v.over then
        Some(TaskResult(Some(Sent), None, DropOption(out, ConnectionEnded), None, used - Maybe(Reserved, out)))
      else if v.slotFree then Some(TaskResult(Some(Sent), Some(out), None, None, used))
      else None
    case (_, AbortTask) =>
      if v.aborting then
        Some(TaskResult(None, None, DropOption(TaskParcel(Some(t)), ConnectionEnded), None,
            used - Maybe(Reserved, TaskParcel(Some(t)))))
      else None
    case _ => None
  }

  function TaskParcel(t: Option<Task>): Option<Parcel> {
    match t
    case Some(Calling(p)) => Some(p)
    case Some(Fetching(p)) => Some(p)
    case Some(Delivering(p)) => Some(p)
    case Some(PostingTask(p)) => Some(p)
    case Some(Completing(out)) => out
    case _ => None
  }

  function SlotParcel(slot: Option<Option<Parcel>>): Option<Parcel> {
    match slot
    case None => None
    case Some(out) => out
  }

  // --------------------------------------------------------------- what it keeps

  predicate AskedOk(cfg: Config, p: Parcel) {
    && LiveOk(cfg, p) && p.stage == Asked && p.kind == Scrape
    && p.tries == 0 && p.frames == 0 && !p.failed && !p.late
    && p.now == p.orig == ErrorFor(p.now.uid)
  }

  predicate OptionForWebSocket(cfg: Config, out: Option<Parcel>) {
    out.Some? ==> ForWebSocket(cfg, out.value)
  }

  predicate TaskOk(cfg: Config, t: Option<Task>) {
    match t
    case Some(Calling(p)) => AskedOk(cfg, p) && p.uidCap == p.bodyCap == 0
    case Some(Fetching(p)) => AskedOk(cfg, p) && |p.now.uid| <= p.uidCap
    case Some(Delivering(p)) => FreshAnswer(cfg, p, Scrape)
    case Some(PostingTask(p)) => InFlight(cfg, p, Scrape)
    case Some(Completing(out)) => OptionForWebSocket(cfg, out)
    case _ => true
  }

  predicate ResultOk(cfg: Config, r: TaskResult) {
    && TaskOk(cfg, r.task)
    && OptionForWebSocket(cfg, SlotParcel(r.sent))
    && (r.lost.Some? ==> FinishedOk(cfg, r.lost.value))
  }

  lemma {:induction false} AnswerIsFresh(cfg: Config, p: Parcel, r: ResourceResponse, bodyCap: nat)
    requires AskedOk(cfg, p) && |p.now.uid| <= p.uidCap
    requires r.uid == p.now.uid && |r.body| <= bodyCap && |r.body| <= MAX_BODY_SIZE
    ensures FreshAnswer(cfg, Answer(p, r, bodyCap), Scrape)
    ensures cfg.protocol != 3 ==> ForWebSocket(cfg, Answer(p, r, bodyCap))
  {
  }

  lemma {:induction false} FetchingKeepsParcels(cfg: Config, used: int, p: Parcel, v: View, st: TaskStep)
    requires TaskOk(cfg, Some(Fetching(p))) && TaskNext(cfg, used, Fetching(p), v, st).Some?
    ensures ResultOk(cfg, TaskNext(cfg, used, Fetching(p), v, st).value)
  {
    match st {
      case UnknownResource =>
        AnswerIsFresh(cfg, p, ResourceResponse(p.now.uid, 404, NO_SUCH_RESOURCE), |NO_SUCH_RESOURCE|);
        AnswerIsFresh(cfg, p, ErrorFor(p.now.uid), 0);
      case FetchOk(status, body) => AnswerIsFresh(cfg, p, ResourceResponse(p.now.uid, status, body), p.bodyCap);
      case FetchFailed => AnswerIsFresh(cfg, p, ErrorFor(p.now.uid), 0);
      case _ =>
    }
  }

  lemma {:induction false} TaskKeepsParcels(cfg: Config, used: int, t: Task, v: View, st: TaskStep)
    requires TaskOk(cfg, Some(t)) && TaskNext(cfg, used, t, v, st).Some?
    ensures ResultOk(cfg, TaskNext(cfg, used, t, v, st).value)
  {
    match t {
      case Fetching(p) => FetchingKeepsParcels(cfg, used, p, v, st);
      case _ =>
    }
  }

  lemma {:induction false} FetchingConserves(m: Measure, cfg: Config, used: int, p: Parcel, v: View, st: TaskStep)
    requires TaskOk(cfg, Some(Fetching(p))) && TaskNext(cfg, used, Fetching(p), v, st).Some? && CountsRequests(m)
    ensures var r := TaskNext(cfg, used, Fetching(p), v, st).value;
            && Maybe(m, TaskParcel(r.task)) + Maybe(m, r.lost) == Maybe(m, Some(p))
            && r.sent == None && r.posted == None
  {
    hide Fits;
    hide LiveOk;
  }

  /** No scrape is lost or duplicated by its task, and a POST is logged exactly when the parcel records an attempt. */
  lemma {:induction false} TaskConserves(m: Measure, cfg: Config, used: int, t: Task, v: View, st: TaskStep)
    requires TaskOk(cfg, Some(t)) && TaskNext(cfg, used, t, v, st).Some? && CountsRequests(m)
    ensures var r := TaskNext(cfg, used, t, v, st).value;
            Maybe(m, TaskParcel(r.task)) + Maybe(m, SlotParcel(r.sent)) + Maybe(m, r.lost)
            == Maybe(m, TaskParcel(Some(t))) + if OfPosts(m) then MaybeKey(m, r.posted) else 0
  {
    match t {
      case Fetching(p) => FetchingConserves(m, cfg, used, p, v, st);
      case _ =>
    }
  }

  lemma {:induction false} TaskKeepsLedger(cfg: Config, used: int, t: Task, v: View, st: TaskStep)
    requires TaskOk(cfg, Some(t)) && TaskNext(cfg, used, t, v, st).Some?
    ensures var r := TaskNext(cfg, used, t, v, st).value;
            && r.used - used == Maybe(Reserved, TaskParcel(r.task))
                + Maybe(Reserved, SlotParcel(r.sent)) - Maybe(Reserved, TaskParcel(Some(t)))
            && (used <= cfg.limit ==> r.used <= cfg.limit)
  {
  }

  /** What the end of the exporter call answers: the fixed 404 if it fits, the exporter's own answer, or the error. */
  function CallAnswers(cfg: Config, used: int, uid: bytes, st: TaskStep): ResourceResponse {
    match st
    case UnknownResource =>
      if used + |NO_SUCH_RESOURCE| <= cfg.limit then ResourceResponse(uid, 404, NO_SUCH_RESOURCE)
      else ResourceResponse(uid, 500, [])
    case FetchOk(status, body) => ResourceResponse(uid, status, body)
    case _ => ResourceResponse(uid, 500, [])
  }

  /**
   The call ends with exactly one answer, which wire 3 goes on to post and older wires hand back for the WebSocket; it
   holds what its buffers occupy, and nothing is sent, lost or posted yet.
   */
  lemma {:induction false} AnswersAreDelivered(cfg: Config, used: int, p: Parcel, v: View, st: TaskStep)
    requires st.UnknownResource? || st.FetchOk? || st.FetchFailed?
    requires TaskOk(cfg, Some(Fetching(p))) && TaskNext(cfg, used, Fetching(p), v, st).Some?
    ensures var r := TaskNext(cfg, used, Fetching(p), v, st).value;
            && r.sent == None && r.lost == None && r.posted == None
            && (if cfg.protocol == 3 then r.task.Some? && r.task.value.Delivering?
                else r.task.Some? && r.task.value.Completing? && r.task.value.out.Some?)
            && var a := TaskParcel(r.task).value;
               && a.id == p.id && a.kind == Scrape && a.stage == Answered
               && a.now == a.orig == CallAnswers(cfg, used, p.now.uid, st)
               && a.held == a.uidCap + a.bodyCap && a.uidCap == p.uidCap && |a.now.body| <= a.bodyCap
               && a.tries == 0 && !a.failed && r.used - used == a.held - p.held
  {
  }

  /**
   A POST goes out with the answer as it is if its form's memory is granted. An accepted one ends the request; whatever
   else becomes of it, the same answer falls back to the WebSocket, marked as failed, unless it is a large one that was
   late.
   */
  lemma {:induction false} PostsThenFallsBack(cfg: Config, used: int, t: Task, v: View, st: TaskStep)
    requires t.Delivering? || t.PostingTask?
    requires TaskNext(cfg, used, t, v, st).Some? && !st.AbortTask?
    ensures var r := TaskNext(cfg, used, t, v, st).value;
            var granted := t.Delivering? && st.PreparePost? && used + st.cap <= cfg.limit;
            var large := st == PostFailed(true) && |t.p.now.body| > 262144;
            && r.sent == None && r.task.Some?
            && r.posted == (if granted then Some(Key(t.p.id, t.p.now)) else None)
            && (r.lost.Some? <==> st == PostAccepted || large)
            && (r.lost.Some? ==>
                  && r.lost.value.id == t.p.id && r.lost.value.now == t.p.now && r.task.value == Completing(None)
                  && r.lost.value.fate == if large then Dropped(LargeAfterTimeout) else Accepted)
            && (r.lost.None? ==>
                  && TaskParcel(r.task).Some?
                  && var q := TaskParcel(r.task).value;
                     && q.id == t.p.id && q.kind == t.p.kind && q.now == t.p.now && q.orig == t.p.orig
                     && (if granted then r.task.value.PostingTask? && q.tries == t.p.tries + 1 && q.failed == t.p.failed
                         else r.task.value.Completing? && q.tries == t.p.tries && q.failed
                              && (q.late <==> st == PostFailed(true))))
  {
  }

  /**
   What the task can do next, and that nothing but a missing completion slot can hold it up: `cap` is what the allocator
   gives for uid or form, at least what is needed.
   */
  lemma {:induction false} TaskMovesExactlyWhen(
      cfg: Config, used: int, t: Task, v: View, cap: nat, status: u16, body: bytes, late: bool)
    ensures TaskNext(cfg, used, t, v, ReserveUid(cap)).Some? <==> t.Calling? && |t.p.now.uid| <= cap
    ensures TaskNext(cfg, used, t, v, GrowBody(cap)).Some? <==> t.Fetching? && used + cap <= cfg.limit
    ensures TaskNext(cfg, used, t, v, UnknownResource).Some? <==> t.Fetching? && t.p.bodyCap == 0
    ensures TaskNext(cfg, used, t, v, FetchOk(status, body)).Some? <==>
            t.Fetching? && |body| <= t.p.bodyCap && |body| <= MAX_BODY_SIZE
    ensures TaskNext(cfg, used, t, v, FetchFailed).Some? <==> t.Fetching?
    ensures TaskNext(cfg, used, t, v, PreparePost(cap)).Some? <==> t.Delivering? && cfg.formLen(t.p.now) <= cap
    ensures TaskNext(cfg, used, t, v, RefuseHeader).Some? <==> t.Delivering?
    ensures TaskNext(cfg, used, t, v, PostAccepted).Some? <==> t.PostingTask?
    ensures TaskNext(cfg, used, t, v, PostFailed(late)).Some? <==> t.PostingTask?
    ensures TaskNext(cfg, used, t, v, SendCompletion).Some? <==> t.Completing? && (v.over || v.slotFree)
  {
  }

  /** Wires 1 and 2 never post. */
  lemma {:induction false} OldWiresNeverPost(cfg: Config, used: int, t: Task, v: View, st: TaskStep)
    requires cfg.protocol != 3 && !t.Delivering? && !t.PostingTask?
    requires TaskNext(cfg, used, t, v, st).Some?
    ensures var r := TaskNext(cfg, used, t, v, st).value;
            r.posted == None && (r.task.Some? ==> !r.task.value.Delivering? && !r.task.value.PostingTask?)
  {
  }
}
