/**
 The sequential code does what the steps say. Encoding a queued response, calling the exporter and preparing a POST
 are modelled as objects that change and as steps of the connection; each run of the objects is a run of the steps,
 with the same outcome and the same bytes.
 */
module Refinement {
  import opened Options
  import opened Bytes
  import opened Protocol
  import opened FormEncoding
  import opened Parcels
  import opened BulkQueue
  import opened ScrapeTask
  import opened Connection
  import opened Memory
  import opened Encoders
  import opened Timing
  import Resource

  // ------------------------------------------------------------ queue_ws_response

  /** The parcel stands for the response object. */
  ghost predicate Represents(p: Parcel, response: BudgetedResponse)
    reads response, response.uid, response.body, response.retained
  {
    && p.stage == Answered && p.now == p.orig == response.Value()
    && p.uidCap == response.uid.capacity && p.bodyCap == response.body.capacity && p.encCap == 0
    && p.held == response.retained.bytes && p.extra == 0
  }

  /** A step of `queue_ws_response` at budget level `used`, if it is the next one. */
  function After(cfg: Config, used: nat, b: Bulk, open: bool, who: Who, out: Outcome, q: QueueStep): Outcome {
    if out.Holding? && QueueNext(cfg, used, b, open, who, out.h, q).Some? then
      QueueNext(cfg, used, b, open, who, out.h, q).value.out
    else out
  }

  /** The steps up to the encoded response, each at the level of the budget it found. */
  function EncodeSteps(cfg: Config, b: Bulk, open: bool, who: Who, p: Parcel, levels: Levels, cap: nat): Outcome {
    var reserved := After(cfg, levels.first, b, open, who, Holding(StartQueueing(p)), ReserveJson);
    var settled := After(cfg, levels.fallback, b, open, who, reserved, ReserveFallback);
    After(cfg, levels.slack, b, open, who, settled, Serialize(cap))
  }

  function Sent(p: Parcel, downgraded: bool): Parcel {
    if downgraded then Downgrade(p) else p
  }

  lemma {:induction false} ReservedFollows(
      cfg: Config, b: Bulk, open: bool, who: Who, p: Parcel, levels: Levels, downgraded: bool)
    requires p.stage == Answered
    requires downgraded <==>
              !(cfg.jsonLen(p.now) <= MAX_WS_MESSAGE_SIZE && levels.first + cfg.jsonLen(p.now) <= cfg.limit)
    requires cfg.jsonLen(ErrorFor(p.now.uid)) <= MAX_WS_MESSAGE_SIZE
    ensures var reserved := After(cfg, levels.first, b, open, who, Holding(StartQueueing(p)), ReserveJson);
            var settled := After(cfg, levels.fallback, b, open, who, reserved, ReserveFallback);
            settled == if downgraded && levels.fallback + cfg.jsonLen(ErrorFor(p.now.uid)) > cfg.limit
                       then GaveUp(Drop(Downgrade(p), MemoryRefused))
                       else Holding(Hold(WithJsonReservation(cfg, Sent(p, downgraded)), AtSerialize))
  {
  }

  lemma {:induction false} SerializedFollows(cfg: Config, used: nat, b: Bulk, open: bool, who: Who, p: Parcel, cap: nat)
    requires p.extra <= cap
    ensures After(cfg, used, b, open, who, Holding(Hold(p, AtSerialize)), Serialize(cap)) ==
            if used + (cap - p.extra) <= cfg.limit then
              Holding(Hold(WithJson(p, cap), AtSend)) else GaveUp(Drop(p, MemoryRefused))
  {
  }

  lemma {:induction false} GivenUpStays(cfg: Config, used: nat, b: Bulk, open: bool, who: Who, p: Parcel, q: QueueStep)
    ensures After(cfg, used, b, open, who, GaveUp(p), q) == GaveUp(p)
  {
  }

  /** The outcome of the steps, and what the parcel has reserved at the end of them. */
  lemma {:induction false} EncodingFollows(
      cfg: Config, b: Bulk, open: bool, who: Who, p: Parcel, levels: Levels, downgraded: bool, cap: nat)
    requires p.stage == Answered && p.extra == 0
    requires downgraded <==>
              !(cfg.jsonLen(p.now) <= MAX_WS_MESSAGE_SIZE && levels.first + cfg.jsonLen(p.now) <= cfg.limit)
    requires cfg.jsonLen(ErrorFor(p.now.uid)) <= MAX_WS_MESSAGE_SIZE
    ensures var out := EncodeSteps(cfg, b, open, who, p, levels, cap);
            var q := WithJsonReservation(cfg, Sent(p, downgraded));
            if downgraded && levels.fallback + cfg.jsonLen(ErrorFor(p.now.uid)) > cfg.limit then
              out == GaveUp(Drop(Downgrade(p), MemoryRefused)) && OutcomeTotal(Reserved, out) == 0
            else q.extra <= cap ==>
              if levels.slack + (cap - q.extra) <= cfg.limit then
                out == Holding(Hold(WithJson(q, cap), AtSend)) && OutcomeTotal(Reserved, out) == cap
              else out == GaveUp(Drop(q, MemoryRefused)) && OutcomeTotal(Reserved, out) == 0
  {
    hide After;
    var q := WithJsonReservation(cfg, Sent(p, downgraded));
    ReservedFollows(cfg, b, open, who, p, levels, downgraded);
    GivenUpStays(cfg, levels.slack, b, open, who, Drop(Downgrade(p), MemoryRefused), Serialize(cap));
    if q.extra <= cap {
      SerializedFollows(cfg, levels.slack, b, open, who, q, cap);
    }
  }

  /** Encodes the response and drops it; `sent` is what was encoded, or would have been. */
  method EncodeAndDrop(response: BudgetedResponse, budget: MemoryBudget, usizeMax: nat, spare: nat)
    returns (encoding: Encoding, downgraded: bool, ghost sent: ResourceResponse)
    requires response.Valid() && response.retained.budget == budget && 0xFFFF_FFFF <= usizeMax
    requires |response.uid.data| <= MAX_UID_SIZE && |response.body.data| <= MAX_BODY_SIZE
    modifies response, response.retained, budget
    ensures budget.Valid()
    ensures budget.held == old(budget.held) - old(response.retained.bytes)
                + (if encoding.Encoded? then encoding.e.json.capacity else 0)
    ensures sent == if downgraded then ErrorFor(old(response.Value()).uid) else old(response.Value())
    ensures var found := old(FoundBy(response, MAX_WS_MESSAGE_SIZE));
            && (downgraded <==> !OriginalFits(old(response.Value()), MAX_WS_MESSAGE_SIZE, budget.limit, found.first))
            && (encoding.Encoded? <==>
                  && (downgraded ==> found.fallback + |EncodeResponse(sent)| <= budget.limit)
                  && found.slack + spare <= budget.limit)
    ensures encoding.Encoded? ==>
              && encoding.e.json.Valid() && encoding.e.json.data == EncodeResponse(sent)
              && encoding.e.reservation.bytes == encoding.e.json.capacity == |EncodeResponse(sent)| + spare
  {
    hide EncodeResponse;
    hide DecodeResponse;
    hide Found;
    encoding, downgraded := BoundedResponseJson(response, budget, usizeMax, spare);
    sent := response.Value();
    response.Drop();
  }

  /**
   `queue_ws_response` up to the send: the response is encoded and dropped. What becomes of it, and of the budget, is
   what the steps of the connection say for the levels that are found and the bytes the allocator adds.
   */
  method QueueResponse(response: BudgetedResponse, budget: MemoryBudget, usizeMax: nat, spare: nat, protocol: nat,
                       ghost p: Parcel, ghost b: Bulk, ghost open: bool, ghost who: Who)
    returns (r: Option<EncodedResponse>, ghost cap: nat)
    requires response.Valid() && response.retained.budget == budget && 0xFFFF_FFFF <= usizeMax
    requires |response.uid.data| <= MAX_UID_SIZE && |response.body.data| <= MAX_BODY_SIZE
    requires Represents(p, response)
    modifies response, response.retained, budget
    ensures budget.Valid()
    ensures var found := old(FoundBy(response, MAX_WS_MESSAGE_SIZE));
            var out := EncodeSteps(Deployed(protocol, budget.limit), b, open, who, p, found, cap);
            && budget.held == old(budget.held) + OutcomeTotal(Reserved, out) - Weight(Reserved, p)
            && (r.None? ==> out.GaveUp? && out.p.fate == Dropped(MemoryRefused))
            && (r.Some? ==>
                  && out.Holding? && out.h.at == AtSend
                  && r.value.json.data == EncodeResponse(out.h.p.now) && cap == |r.value.json.data| + spare
                  && r.value.json.capacity == r.value.reservation.bytes == out.h.p.encCap == out.h.p.extra == cap)
  {
    ghost var cfg := Deployed(protocol, budget.limit);
    FallbackLength(p.now.uid);
    hide EncodeResponse;
    hide EncodeSteps;
    hide OutcomeTotal;
    hide Found;
    ghost var found := FoundBy(response, MAX_WS_MESSAGE_SIZE);
    var encoding, downgraded;
    ghost var sent;
    encoding, downgraded, sent := EncodeAndDrop(response, budget, usizeMax, spare);
    r := if encoding.Encoded? then Some(encoding.e) else None;
    cap := |EncodeResponse(sent)| + spare;
    EncodingFollows(cfg, b, open, who, p, found, downgraded, cap);
  }

  // ------------------------------------------------------------------ call_resource

  const UNDISTURBED: View := View(false, true, false)

  /** A step of the scrape task at budget level `used`. */
  function TaskStepAt(cfg: Config, used: nat, t: Task, st: TaskStep): Option<Task> {
    var r :- TaskNext(cfg, used, t, UNDISTURBED, st);
    r.task
  }

  /** Steps of the scrape task, each with the level of the budget it finds. */
  function TaskSteps(cfg: Config, t: Task, moves: seq<(nat, TaskStep)>): Option<Task>
    decreases |moves|
  {
    if moves == [] then Some(t)
    else
      var t' :- TaskStepAt(cfg, moves[0].0, t, moves[0].1);
      TaskSteps(cfg, t', moves[1..])
  }

  lemma {:induction false} OneMove(cfg: Config, t: Task, used: nat, st: TaskStep, rest: seq<(nat, TaskStep)>)
    ensures TaskSteps(cfg, t, [(used, st)] + rest) ==
            match TaskStepAt(cfg, used, t, st) case None => None case Some(t') => TaskSteps(cfg, t', rest)
  {
    hide TaskStepAt;
    assert ([(used, st)] + rest)[1..] == rest;
  }

  /** The request with its uid reserved. */
  function WithUid(id: nat, uid: bytes, uidCap: nat): Parcel {
    NewScrape(id, uid).(uidCap := uidCap, held := uidCap)
  }

  lemma {:induction false} UidRefused(cfg: Config, id: nat, uid: bytes, uidCap: nat, seen: nat)
    requires |uid| <= uidCap && seen + uidCap > cfg.limit
    ensures TaskSteps(cfg, Calling(NewScrape(id, uid)), [(seen, ReserveUid(uidCap))]) == Some(Completing(None))
  {
    assert [(seen, ReserveUid(uidCap))] == [(seen, ReserveUid(uidCap))] + [];
    OneMove(cfg, Calling(NewScrape(id, uid)), seen, ReserveUid(uidCap), []);
  }

  lemma {:induction false} UidReserved(cfg: Config, id: nat, uid: bytes, uidCap: nat, seen: nat)
    requires |uid| <= uidCap && seen + uidCap <= cfg.limit
    ensures TaskStepAt(cfg, seen, Calling(NewScrape(id, uid)), ReserveUid(uidCap)) ==
              Some(Fetching(WithUid(id, uid, uidCap)))
  {
  }

  lemma {:induction false} UnknownFollows(cfg: Config, id: nat, uid: bytes, uidCap: nat, used: nat)
    ensures TaskStepAt(cfg, used, Fetching(WithUid(id, uid, uidCap)), UnknownResource) ==
            Some(Delivered(cfg,
              if used + |NO_SUCH_RESOURCE| <= cfg.limit then
                Answer(WithUid(id, uid, uidCap), ResourceResponse(uid, 404, NO_SUCH_RESOURCE), |NO_SUCH_RESOURCE|)
              else Answer(WithUid(id, uid, uidCap), ErrorFor(uid), 0)))
  {
  }

  lemma {:induction false} FetchFailedFollows(cfg: Config, id: nat, uid: bytes, uidCap: nat, used: nat)
    ensures TaskStepAt(cfg, used, Fetching(WithUid(id, uid, uidCap)), FetchFailed) ==
            Some(Delivered(cfg, Answer(WithUid(id, uid, uidCap), ErrorFor(uid), 0)))
  {
  }

  lemma {:induction false} FetchOkFollows(
      cfg: Config, id: nat, uid: bytes, uidCap: nat, used: nat, r: ResourceResponse, bodyCap: nat)
    requires r.uid == uid && |r.body| <= bodyCap && |r.body| <= MAX_BODY_SIZE && used + bodyCap <= cfg.limit
    ensures TaskSteps(cfg, Fetching(WithUid(id, uid, uidCap)),
                [(used, GrowBody(bodyCap)), (used, FetchOk(r.status, r.body))]) ==
            Some(Delivered(cfg, Answer(WithUid(id, uid, uidCap), r, bodyCap)))
  {
    var p := WithUid(id, uid, uidCap);
    var grow, finish := GrowBody(bodyCap), FetchOk(r.status, r.body);
    var grown := p.(bodyCap := p.bodyCap + bodyCap, held := p.held + bodyCap);
    assert TaskStepAt(cfg, used, Fetching(p), grow) == Some(Fetching(grown));
    assert TaskStepAt(cfg, used, Fetching(grown), finish) == Some(Delivered(cfg, Answer(p, r, bodyCap)));
    assert [(used, grow), (used, finish)] == [(used, grow)] + ([(used, finish)] + []);
    OneMove(cfg, Fetching(p), used, grow, [(used, finish)] + []);
    OneMove(cfg, Fetching(grown), used, finish, []);
  }

  /** With the answer of the exporter call: wire 3 goes on to post it, older wires complete with it. */
  function Delivered(cfg: Config, p: Parcel): Task {
    if cfg.protocol == 3 then Delivering(p) else Completing(Some(p))
  }

  /** The moves after the uid was reserved: of a 404 or its failure, of a download, or of a failed one. */
  function CallMoves(
      known: bool, failed: Option<Resource.Failure>, r: ResourceResponse, bodyCap: nat, held: nat): seq<(nat, TaskStep)>
  {
    if !known then
      [(if failed.Some? && failed.value.Memory? then failed.value.seen else held, UnknownResource)]
    else if failed.Some? then [(held, FetchFailed)]
    else [(held, GrowBody(bodyCap)), (held, FetchOk(r.status, r.body))]
  }

  lemma {:induction false} CallFollows(
      cfg: Config, id: nat, uid: bytes, uidCap: nat, seen: nat, known: bool, failed: Option<Resource.Failure>,
      r: ResourceResponse, bodyCap: nat, held: nat)
    requires |uid| <= uidCap && seen + uidCap <= cfg.limit && held + bodyCap <= cfg.limit
    requires failed.Some? ==> r == ErrorFor(uid) && bodyCap == 0
    requires failed.Some? && !known ==> failed.value.Memory? && failed.value.seen + |NO_SUCH_RESOURCE| > cfg.limit
    requires failed.None? && !known ==>
              r == ResourceResponse(uid, 404, NO_SUCH_RESOURCE) && bodyCap == |NO_SUCH_RESOURCE|
    requires failed.None? && known ==> r.uid == uid && |r.body| <= bodyCap && |r.body| <= MAX_BODY_SIZE
    ensures TaskSteps(cfg, Calling(NewScrape(id, uid)), [(seen, ReserveUid(uidCap))]
                + CallMoves(known, failed, r, bodyCap, held)) ==
            Some(Delivered(cfg, Answer(WithUid(id, uid, uidCap), r, bodyCap)))
  {
    hide TaskStepAt;
    hide Answer;
    hide Delivered;
    UidReserved(cfg, id, uid, uidCap, seen);
    var moves := CallMoves(known, failed, r, bodyCap, held);
    OneMove(cfg, Calling(NewScrape(id, uid)), seen, ReserveUid(uidCap), moves);
    var t := Fetching(WithUid(id, uid, uidCap));
    if !known {
      UnknownFollows(cfg, id, uid, uidCap, moves[0].0);
      assert moves == [moves[0]] + [];
      OneMove(cfg, t, moves[0].0, UnknownResource, []);
    } else if failed.Some? {
      FetchFailedFollows(cfg, id, uid, uidCap, held);
      assert moves == [moves[0]] + [];
      OneMove(cfg, t, held, FetchFailed, []);
    } else {
      FetchOkFollows(cfg, id, uid, uidCap, held, r, bodyCap);
    }
  }

  /**
   The exporter call of a scrape task: what it returns is what the steps of the task come to at levels of the budget
   within its limit, with the same content and the same bytes held.
   */
  method CallTask(uid: ByteVec, exporter: Option<Resource.Reply>, memory: Resource.Answers, budget: MemoryBudget,
                  cfg: Config, id: nat)
    returns (r: Option<BudgetedResponse>, ghost moves: seq<(nat, TaskStep)>)
    requires uid.Valid() && budget.Valid() && cfg.limit == budget.limit
    modifies budget
    ensures budget.Valid() && forall i :: 0 <= i < |moves| ==> moves[i].0 <= budget.limit
    ensures moves != [] && moves[0] == (old(budget.Level()), ReserveUid(uid.capacity))
    ensures r.None? ==>
              && TaskSteps(cfg, Calling(NewScrape(id, uid.data)), moves) == Some(Completing(None))
              && budget.held == old(budget.held)
    ensures r.Some? ==>
              var p := Answer(WithUid(id, uid.data, uid.capacity), r.value.Value(), r.value.body.capacity);
              && r.value.Valid() && Represents(p, r.value) && r.value.retained.budget == budget
              && TaskSteps(cfg, Calling(NewScrape(id, uid.data)), moves) ==
                   Some(if cfg.protocol == 3 then Delivering(p) else Completing(Some(p)))
              && budget.held == old(budget.held) + Weight(Reserved, p)
  {
    hide Resource.Download;
    hide Resource.NothingRefused;
    hide Resource.AllocatorRefuses;
    hide TaskSteps;
    hide TaskNext;
    var seen, why;
    r, seen, why := Resource.CallResource(uid, exporter, memory, budget);
    if r.None? {
      moves := [(seen, ReserveUid(uid.capacity))];
      UidRefused(cfg, id, uid.data, uid.capacity, seen);
    } else {
      var response := r.value;
      var held := uid.capacity;
      moves := [(seen, ReserveUid(uid.capacity))]
          + CallMoves(exporter.Some?, why, response.Value(), response.body.capacity, held);
      CallFollows(cfg, id, uid.data, uid.capacity, seen, exporter.Some?, why, response.Value(), response.body.capacity,
          held);
    }
  }

  // ------------------------------------------------------------------ post_response

  /**
   The preparation of a scrape's POST: a form that is ready is a POST that starts with exactly its bytes reserved, a
   budget that refuses is a refusal of the step, and a header that cannot be encoded is the step for that.
   */
  method PrepareTask(response: BudgetedResponse, budget: MemoryBudget, postTimeout: real, headersOk: bool,
                     usizeMax: nat, spare: nat, protocol: nat, ghost p: Parcel)
    returns (r: Preparation, ghost cap: nat)
    requires response.Valid() && response.retained.budget == budget && 0xFFFF_FFFF <= usizeMax
    requires |response.uid.data| <= MAX_UID_SIZE && |response.body.data| <= MAX_BODY_SIZE
    requires Represents(p, response)
    modifies budget
    ensures response.Valid() && cap == |EncodeForm(p.now)| + spare
    ensures var cfg := Deployed(protocol, budget.limit);
            var used := FormLevel(budget, old(budget.accesses), old(budget.held), |EncodeForm(p.now)|);
            && (r.Prepared? ==>
                  && cap == r.request.form.capacity == r.request.reservation.bytes
                  && TaskStepAt(cfg, used, Delivering(p), PreparePost(cap)) == Some(PostingTask(AttemptPost(p, cap)))
                  && budget.held == old(budget.held) + Weight(Reserved, AttemptPost(p, cap)) - Weight(Reserved, p))
            && (r.NotPrepared? ==>
                  && TaskStepAt(cfg, used, Delivering(p), if r.error.BadHeader? then RefuseHeader else PreparePost(cap))
                     == Some(Completing(Some(FailPost(p, false))))
                  && budget.held == old(budget.held))
  {
    hide EncodeForm;
    hide Parse;
    hide Decimal;
    hide Ascii;
    hide PostTimeout;
    hide EncodeResponse;
    cap := |EncodeForm(p.now)| + spare;
    r := PrepareFormRequest(response, budget, postTimeout, headersOk, usizeMax, spare);
  }

  /** The level at which one step reserves form and slack: the first if it refuses, else the second without the form. */
  function FormLevel(budget: MemoryBudget, i: nat, share: nat, length: nat): int {
    var levels := FormLevels(budget, i, share, length);
    if levels.0 + length > budget.limit then levels.0 else levels.1 - length
  }
}
