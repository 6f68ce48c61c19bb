/**
 The exporter call: the download loop that reserves memory before it allocates, and the response made of
 its outcome. Exporter, allocator and the rest of the process are adversarial.
 */
module Resource {
  import opened Options
  import opened Bytes
  import opened Protocol
  import opened Memory

  /** A chunk of the body, or the error that ends the stream. */
  type Chunk = Option<bytes>

  /**
   What the exporter does: no answer, or a status, a parsed Content-Length if there is one, and a stream of chunks.
   */
  datatype Reply = NoAnswer | Reply(status: u16, declared: Option<nat>, chunks: seq<Chunk>)

  datatype Failure =
    | Transport             // no answer, or the stream broke
    | TooLarge
    | Memory(n: nat, seen: nat)  // `n` bytes did not fit next to `seen`
    | Allocator
    | NotUtf8

  datatype Fetched = Fetched(status: u16, body: ByteVec) | Failed(why: Failure)

  // ------------------------------------------------------------- specification

  /** All chunks in order, if none of them is an error. */
  function Concatenated(chunks: seq<Chunk>): Option<bytes> {
    if chunks == [] then Some([])
    else
      var head :- chunks[0];
      var tail :- Concatenated(chunks[1..]);
      Some(head + tail)
  }

  /**
   What a download is meant to deliver: the exporter's status and the whole body, if that is UTF-8 within the limit.
   */
  function Download(reply: Reply): (r: Option<(u16, bytes)>)
    ensures r.Some? ==> |r.value.1| <= MAX_BODY_SIZE && ValidUtf8(r.value.1)
  {
    if reply.NoAnswer? || (reply.declared.Some? && reply.declared.value > MAX_BODY_SIZE) then None
    else
      var body :- Concatenated(reply.chunks);
      if |body| <= MAX_BODY_SIZE && ValidUtf8(body) then Some((reply.status, body)) else None
  }

  lemma {:induction false} ConcatenatedPrefix(chunks: seq<Chunk>, k: nat)
    requires k <= |chunks| && Concatenated(chunks).Some?
    ensures Concatenated(chunks[..k]).Some? && Concatenated(chunks[..k]).value <= Concatenated(chunks).value
  {
    if k > 0 {
      ConcatenatedPrefix(chunks[1..], k - 1);
      assert chunks[..k][1..] == chunks[1..][..k - 1];
    }
  }

  lemma {:induction false} ConcatenatedPush(chunks: seq<Chunk>, chunk: Chunk)
    ensures Concatenated(chunks + [chunk]) ==
            if Concatenated(chunks).Some? && chunk.Some? then Some(Concatenated(chunks).value + chunk.value) else None
  {
    if chunks == [] {
      assert chunks + [chunk] == [chunk] && [chunk][1..] == [];
      if chunk.Some? {
        assert chunk.value + [] == [] + chunk.value;
      }
    } else {
      assert (chunks + [chunk])[1..] == chunks[1..] + [chunk];
      ConcatenatedPush(chunks[1..], chunk);
      if Concatenated(chunks).Some? && chunk.Some? {
        assert chunks[0].value + (Concatenated(chunks[1..]).value + chunk.value) ==
          Concatenated(chunks).value + chunk.value;
      }
    }
  }

  lemma {:induction false} NextChunk(chunks: seq<Chunk>, k: nat)
    requires k < |chunks| && Concatenated(chunks[..k]).Some?
    ensures Concatenated(chunks[..k + 1]) ==
            if chunks[k].Some? then Some(Concatenated(chunks[..k]).value + chunks[k].value) else None
  {
    assert chunks[..k + 1] == chunks[..k] + [chunks[k]];
    ConcatenatedPush(chunks[..k], chunks[k]);
  }

  /** A broken stream or a body that grows too large on the way cannot be part of a successful download. */
  lemma {:induction false} PrefixDecides(reply: Reply, k: nat)
    requires reply.Reply? && k <= |reply.chunks|
    requires Concatenated(reply.chunks[..k]).None? || |Concatenated(reply.chunks[..k]).value| > MAX_BODY_SIZE
    ensures Download(reply) == None
  {
    if Concatenated(reply.chunks).Some? {
      ConcatenatedPrefix(reply.chunks, k);
    }
  }

  // ---------------------------------------------------------- fetch_resource

  /** What is allocated before the download: the announced length. */
  function InitialCapacity(reply: Reply): nat {
    if reply.NoAnswer? || reply.declared.None? then 0
    else if reply.declared.value < MAX_BODY_SIZE then reply.declared.value
    else MAX_BODY_SIZE
  }

  /** The length of the first `k` chunks, as far as the stream is not broken. */
  function LengthAt(chunks: seq<Chunk>, k: nat): nat
    requires k <= |chunks|
  {
    match Concatenated(chunks[..k])
    case None => 0
    case Some(body) => |body|
  }

  /**
   The buffer's capacity after `k` chunks. `memory` is what the allocator answers: what it adds to the first allocation,
   and to the growth for each chunk that does not fit, unless it refuses.
   */
  function CapacityAt(reply: Reply, memory: Answers, k: nat): nat
    requires reply.Reply? && k <= |reply.chunks|
  {
    if k == 0 then InitialCapacity(reply) + memory.spare
    else Enlarged(CapacityAt(reply, memory, k - 1), LengthAt(reply.chunks, k), memory.growth(k - 1))
  }

  /** The allocator's answers during a download. */
  datatype Answers = Answers(spare: nat, growth: nat -> Option<nat>)

  lemma {:induction false} CapacityGrows(reply: Reply, memory: Answers, k: nat, n: nat)
    requires reply.Reply? && k <= n <= |reply.chunks|
    ensures CapacityAt(reply, memory, k) <= CapacityAt(reply, memory, n)
  {
    if k < n {
      CapacityGrows(reply, memory, k, n - 1);
    }
  }

  /** The largest capacity of the whole download. */
  function Largest(reply: Reply, memory: Answers): nat {
    if reply.NoAnswer? then 0 else CapacityAt(reply, memory, |reply.chunks|)
  }

  /** Some chunk that does not fit is refused room by the allocator. */
  ghost predicate AllocatorRefuses(reply: Reply, memory: Answers) {
    reply.Reply? && exists k ::
      0 <= k < |reply.chunks| && memory.growth(k).None? && LengthAt(reply.chunks, k + 1) > CapacityAt(reply, memory, k)
  }

  /**
   The budget's last access refused `n` bytes: they did not fit next to what that access found, and with them this
   worker would hold no more than `most`.
   */
  ghost predicate BudgetRefused(budget: MemoryBudget, before: nat, n: nat, seen: nat, most: nat)
    reads budget
  {
    && before < budget.accesses && seen == budget.LevelAt(budget.accesses - 1, budget.held)
    && seen + n > budget.limit && budget.held + n <= most
  }

  /** Whenever this worker looks, the rest of the process leaves it room for a share of `most`. */
  ghost predicate AlwaysRoom(budget: MemoryBudget, most: nat) {
    forall i :: most + budget.others(i) <= budget.limit
  }

  lemma {:induction false} RoomIsGranted(budget: MemoryBudget, before: nat, n: nat, seen: nat, most: nat)
    requires BudgetRefused(budget, before, n, seen, most)
    ensures !AlwaysRoom(budget, most)
  {
    assert budget.LevelAt(budget.accesses - 1, budget.held) <= budget.held + budget.others(budget.accesses - 1);
  }

  /** Why a download ends without a body; `most` is the share its largest buffer would take the worker to. */
  ghost predicate Justified(
      reply: Reply, memory: Answers, why: Failure, budget: MemoryBudget, before: nat, most: nat)
    reads budget
  {
    match why
    case Memory(n, seen) => BudgetRefused(budget, before, n, seen, most)
    case Allocator => AllocatorRefuses(reply, memory)
    case _ => Download(reply) == None
  }

  /** Nobody refuses this download anything. */
  ghost predicate NothingRefused(reply: Reply, memory: Answers, budget: MemoryBudget, share: nat) {
    !AllocatorRefuses(reply, memory) && AlwaysRoom(budget, share + Largest(reply, memory))
  }

  lemma {:induction false} RefusedAtFirst(
      reply: Reply, memory: Answers, budget: MemoryBudget, before: nat, n: nat, seen: nat, share: nat)
    requires reply.Reply?
    requires BudgetRefused(budget, before, n, seen, share + CapacityAt(reply, memory, 0))
    ensures Justified(reply, memory, Memory(n, seen), budget, before, share + Largest(reply, memory))
    ensures !NothingRefused(reply, memory, budget, share)
  {
    CapacityGrows(reply, memory, 0, |reply.chunks|);
    RoomIsGranted(budget, before, n, seen, share + Largest(reply, memory));
  }

  lemma {:induction false} RefusedForChunk(
      reply: Reply, memory: Answers, budget: MemoryBudget, before: nat, since: nat, why: Failure, share: nat, k: nat)
    requires reply.Reply? && k < |reply.chunks| && before <= since
    requires LengthAt(reply.chunks, k + 1) > CapacityAt(reply, memory, k)
    requires if why.Memory? then
               BudgetRefused(budget, since, why.n, why.seen, share + CapacityAt(reply, memory, k + 1))
             else why.Allocator? && memory.growth(k).None?
    ensures Justified(reply, memory, why, budget, before, share + Largest(reply, memory))
    ensures !NothingRefused(reply, memory, budget, share)
  {
    if why.Memory? {
      CapacityGrows(reply, memory, k + 1, |reply.chunks|);
      RoomIsGranted(budget, before, why.n, why.seen, share + Largest(reply, memory));
    }
  }

  lemma {:induction false} CannotSucceed(
      reply: Reply, memory: Answers, why: Failure, budget: MemoryBudget, before: nat, most: nat)
    requires Download(reply) == None && (why == Transport || why == TooLarge || why == NotUtf8)
    ensures Justified(reply, memory, why, budget, before, most)
  {
  }

  lemma {:induction false} NothingYet(reply: Reply, memory: Answers)
    requires reply.Reply?
    ensures Concatenated(reply.chunks[..0]) == Some([])
    ensures CapacityAt(reply, memory, 0) == InitialCapacity(reply) + memory.spare
    ensures Largest(reply, memory) == CapacityAt(reply, memory, |reply.chunks|)
  {
  }

  lemma {:induction false} WholeBody(reply: Reply, body: bytes)
    requires reply.Reply? && (reply.declared.Some? ==> reply.declared.value <= MAX_BODY_SIZE)
    requires Concatenated(reply.chunks) == Some(body) && |body| <= MAX_BODY_SIZE
    ensures Download(reply) == if ValidUtf8(body) then Some((reply.status, body)) else None
  {
  }

  lemma {:induction false} NextCapacity(reply: Reply, memory: Answers, k: nat, body: bytes)
    requires reply.Reply? && k < |reply.chunks| && Concatenated(reply.chunks[..k + 1]) == Some(body)
    ensures LengthAt(reply.chunks, k + 1) == |body|
    ensures CapacityAt(reply, memory, k + 1) == Enlarged(CapacityAt(reply, memory, k), |body|, memory.growth(k))
  {
  }

  /** Reserves, allocates, and reserves what the allocator added; `why` says what failed. */
  method Preallocate(capacity: nat, spare: nat, retained: MemoryReservation)
    returns (buffer: ByteVec, why: Option<Failure>)
    requires retained.Valid()
    modifies retained, retained.budget
    ensures retained.Valid() && retained.bytes >= old(retained.bytes)
    ensures retained.budget.held - retained.bytes == old(retained.budget.held) - old(retained.bytes)
    ensures fresh(buffer) && buffer.Valid() && buffer.data == []
    ensures retained.budget.accesses > old(retained.budget.accesses)
    ensures why.None? ==> buffer.capacity == capacity + spare && retained.bytes == old(retained.bytes) + buffer.capacity
    ensures why.Some? ==>
              && why.value.Memory?
              && BudgetRefused(retained.budget, old(retained.budget.accesses), why.value.n, why.value.seen,
                  old(retained.budget.held) + capacity + spare)
  {
    var ok, seen := retained.TryGrow(capacity);
    if !ok {
      buffer := new ByteVec.Empty();
      return buffer, Some(Memory(capacity, seen));
    }
    buffer := new ByteVec.WithCapacity(capacity, spare);
    if buffer.capacity > capacity {
      ok, seen := retained.TryGrow(buffer.capacity - capacity);
      if !ok {
        return buffer, Some(Memory(buffer.capacity - capacity, seen));
      }
    }
    return buffer, None;
  }

  /**
   Room for `more` bytes: the reservation grows before the buffer does, and again if the allocator, whose answer is
   `answer`, gave more.
   */
  method MakeRoom(buffer: ByteVec, more: nat, answer: Option<nat>, retained: MemoryReservation)
    returns (why: Option<Failure>)
    requires retained.Valid() && buffer.Valid()
    modifies retained, retained.budget, buffer`capacity
    ensures retained.Valid() && buffer.Valid() && retained.bytes >= old(retained.bytes)
    ensures retained.budget.held - retained.bytes == old(retained.budget.held) - old(retained.bytes)
    ensures retained.budget.accesses >= old(retained.budget.accesses)
    ensures why.None? ==>
              && |buffer.data| + more <= buffer.capacity == Enlarged(old(buffer.capacity), |buffer.data| + more, answer)
              && retained.bytes - buffer.capacity == old(retained.bytes) - old(buffer.capacity)
    ensures why.Some? ==> |buffer.data| + more > old(buffer.capacity)
    ensures buffer.capacity == old(buffer.capacity)
            || retained.bytes - old(retained.bytes) >= |buffer.data| + more - old(buffer.capacity)
    ensures why.Some? ==>
              if why.value.Memory? then
                BudgetRefused(retained.budget, old(retained.budget.accesses), why.value.n, why.value.seen,
                    old(retained.budget.held) - old(buffer.capacity)
                    + Enlarged(old(buffer.capacity), |buffer.data| + more, answer))
              else why.value.Allocator? && answer.None?
  {
    var previousCapacity := buffer.capacity;
    if |buffer.data| + more > previousCapacity {
      var minimumGrowth := |buffer.data| + more - previousCapacity;
      var ok, seen := retained.TryGrow(minimumGrowth);
      if !ok {
        return Some(Memory(minimumGrowth, seen));
      }
      ok := buffer.TryReserveExact(more, answer);
      if !ok {
        return Some(Allocator);
      }
      var actualGrowth := buffer.capacity - previousCapacity;
      if actualGrowth > minimumGrowth {
        ok, seen := retained.TryGrow(actualGrowth - minimumGrowth);
        if !ok {
          return Some(Memory(actualGrowth - minimumGrowth, seen));
        }
      }
    }
    return None;
  }

  /**
   Downloads the body into a buffer covered by `retained` at every step. On success the body is all of the
   chunks and the reservation has grown by exactly the capacity of the buffer; it fails only if the download cannot
   succeed, the allocator refuses or the budget does.
   */
  method FetchResource(reply: Reply, memory: Answers, retained: MemoryReservation) returns (r: Fetched)
    requires retained.Valid()
    modifies retained, retained.budget
    ensures retained.Valid() && retained.bytes >= old(retained.bytes)
    ensures retained.budget.held - retained.bytes == old(retained.budget.held) - old(retained.bytes)
    ensures r.Fetched? ==>
              && Download(reply) == Some((r.status, r.body.data)) && r.body.Valid() && fresh(r.body)
              && r.body.capacity == Largest(reply, memory)
              && retained.bytes == old(retained.bytes) + r.body.capacity
    ensures r.Failed? ==>
              Justified(reply, memory, r.why, retained.budget, old(retained.budget.accesses),
                  old(retained.budget.held) + Largest(reply, memory))
    ensures Download(reply).Some? && NothingRefused(reply, memory, retained.budget, old(retained.budget.held)) ==>
              r.Fetched?
  {
    ghost var share, before := retained.budget.held, retained.budget.accesses;
    ghost var most := share + Largest(reply, memory);
    hide ValidUtf8;
    hide Justified;
    hide NothingRefused;
    if reply.NoAnswer? {
      CannotSucceed(reply, memory, Transport, retained.budget, before, most);
      return Failed(Transport);
    }
    if reply.declared.Some? && reply.declared.value > MAX_BODY_SIZE {
      CannotSucceed(reply, memory, TooLarge, retained.budget, before, most);
      return Failed(TooLarge);
    }
    r := FetchBody(reply, memory, retained);
  }

  /** One turn of the loop: the next chunk goes to the end of the buffer, unless something fails. */
  method ReceiveChunk(reply: Reply, memory: Answers, k: nat, buffer: ByteVec, retained: MemoryReservation,
                      ghost share: nat, ghost before: nat)
    returns (why: Option<Failure>)
    requires reply.Reply? && k < |reply.chunks| && retained.Valid() && buffer.Valid()
    requires retained.budget.held == share + buffer.capacity && before <= retained.budget.accesses
    requires Concatenated(reply.chunks[..k]) == Some(buffer.data) && |buffer.data| <= MAX_BODY_SIZE
    requires buffer.capacity == CapacityAt(reply, memory, k)
    modifies retained, retained.budget, buffer
    ensures retained.Valid() && buffer.Valid() && before <= retained.budget.accesses
    ensures retained.budget.held - retained.bytes == old(retained.budget.held) - old(retained.bytes)
    ensures retained.bytes >= old(retained.bytes)
    ensures why.None? ==>
              && retained.bytes - buffer.capacity == old(retained.bytes) - old(buffer.capacity)
              && Concatenated(reply.chunks[..k + 1]) == Some(buffer.data) && |buffer.data| <= MAX_BODY_SIZE
              && buffer.capacity == CapacityAt(reply, memory, k + 1)
    ensures why.Some? ==>
              && Justified(reply, memory, why.value, retained.budget, before, share + Largest(reply, memory))
              && !(Download(reply).Some? && NothingRefused(reply, memory, retained.budget, share))
  {
    hide BudgetRefused;
    hide AlwaysRoom;
    hide Justified;
    hide NothingRefused;
    hide Enlarged;
    hide Concatenated;
    hide Download;
    hide LengthAt;
    hide CapacityAt;
    hide Largest;
    ghost var most := share + Largest(reply, memory);
    NextChunk(reply.chunks, k);
    var next := reply.chunks[k];
    if next.None? {
      PrefixDecides(reply, k + 1);
      CannotSucceed(reply, memory, Transport, retained.budget, before, most);
      return Some(Transport);
    }
    var chunk := next.value;
    if |buffer.data| + |chunk| > MAX_BODY_SIZE {
      PrefixDecides(reply, k + 1);
      CannotSucceed(reply, memory, TooLarge, retained.budget, before, most);
      return Some(TooLarge);
    }
    NextCapacity(reply, memory, k, buffer.data + chunk);
    ghost var since := retained.budget.accesses;
    why := MakeRoom(buffer, |chunk|, memory.growth(k), retained);
    if why.Some? {
      RefusedForChunk(reply, memory, retained.budget, before, since, why.value, share, k);
      return why;
    }
    buffer.Extend(chunk);
  }

  method FetchBody(reply: Reply, memory: Answers, retained: MemoryReservation) returns (r: Fetched)
    requires retained.Valid()
    requires reply.Reply? && (reply.declared.Some? ==> reply.declared.value <= MAX_BODY_SIZE)
    modifies retained, retained.budget
    ensures retained.Valid() && retained.bytes >= old(retained.bytes)
    ensures retained.budget.held - retained.bytes == old(retained.budget.held) - old(retained.bytes)
    ensures r.Fetched? ==>
              && Download(reply) == Some((r.status, r.body.data)) && r.body.Valid() && fresh(r.body)
              && r.body.capacity == Largest(reply, memory)
              && retained.bytes == old(retained.bytes) + r.body.capacity
    ensures r.Failed? ==>
              Justified(reply, memory, r.why, retained.budget, old(retained.budget.accesses),
                  old(retained.budget.held) + Largest(reply, memory))
    ensures Download(reply).Some? && NothingRefused(reply, memory, retained.budget, old(retained.budget.held)) ==>
              r.Fetched?
  {
    hide ValidUtf8;
    hide BudgetRefused;
    hide AlwaysRoom;
    hide Justified;
    hide NothingRefused;
    hide Enlarged;
    NothingYet(reply, memory);
    hide Concatenated;
    hide Download;
    hide LengthAt;
    hide CapacityAt;
    hide BudgetRefused;
    ghost var share, before := retained.budget.held, retained.budget.accesses;
    ghost var most := share + Largest(reply, memory);
    var declared := if reply.declared.Some? then reply.declared.value else 0;
    var initialCapacity := if declared < MAX_BODY_SIZE then declared else MAX_BODY_SIZE;
    var buffer, why := Preallocate(initialCapacity, memory.spare, retained);
    if why.Some? {
      RefusedAtFirst(reply, memory, retained.budget, before, why.value.n, why.value.seen, share);
      return Failed(why.value);
    }
    var k := 0;
    while k < |reply.chunks|
      invariant k <= |reply.chunks|
      invariant retained.Valid() && buffer.Valid() && fresh(buffer) && retained.budget.accesses >= before
      invariant retained.bytes == old(retained.bytes) + buffer.capacity
      invariant retained.budget.held == share + buffer.capacity
      invariant Concatenated(reply.chunks[..k]) == Some(buffer.data) && |buffer.data| <= MAX_BODY_SIZE
      invariant buffer.capacity == CapacityAt(reply, memory, k)
    {
      why := ReceiveChunk(reply, memory, k, buffer, retained, share, before);
      if why.Some? {
        return Failed(why.value);
      }
      k := k + 1;
    }
    assert reply.chunks[..k] == reply.chunks;
    WholeBody(reply, buffer.data);
    if !ValidUtf8(buffer.data) {
      CannotSucceed(reply, memory, NotUtf8, retained.budget, before, most);
      return Failed(NotUtf8);
    }
    return Fetched(reply.status, buffer);
  }

  // ------------------------------------------------------------- call_resource

  /** The answers a request may get: the exporter's own, or the fixed ones. */
  predicate AnswerFor(uid: bytes, exporter: Option<Reply>, answer: ResourceResponse) {
    || answer == ErrorFor(uid)
    || (exporter.None? && answer == ResourceResponse(uid, 404, NO_SUCH_RESOURCE))
    || (exporter.Some? && Download(exporter.value) == Some((answer.status, answer.body)) && answer.uid == uid)
  }

  lemma {:induction false} RoomForUid(exporter: Option<Reply>, memory: Answers, budget: MemoryBudget, n: nat)
    ensures exporter.Some? && NothingRefused(exporter.value, memory, budget, budget.held + n) ==>
              budget.Level() + n <= budget.limit
  {
    if exporter.Some? && NothingRefused(exporter.value, memory, budget, budget.held + n) {
      assert budget.held + n + Largest(exporter.value, memory) + budget.others(budget.accesses) <= budget.limit;
    }
  }

  /**
   Calls the exporter of an allow-listed resource (`None` for an unknown one). The only way to get no response at
   all is that the uid itself does not fit in the budget; any response holds exactly what its buffers occupy.
   */
  method CallResource(uid: ByteVec, exporter: Option<Reply>, memory: Answers, budget: MemoryBudget)
    returns (r: Option<BudgetedResponse>, seen: nat, why: Option<Failure>)
    requires uid.Valid() && budget.Valid()
    modifies budget
    ensures budget.Valid() && seen == old(budget.Level()) && r.Some? == (seen + uid.capacity <= budget.limit)
    ensures r.None? ==> budget.held == old(budget.held)
    ensures r.Some? ==>
              var response := r.value;
              && fresh(response) && response.Valid() && response.uid == uid && response.retained.budget == budget
              && budget.held == old(budget.held) + uid.capacity + response.body.capacity
              && AnswerFor(uid.data, exporter, response.Value())
    ensures r.Some? && why.None? && exporter.Some? ==>
              && Download(exporter.value) == Some((r.value.status, r.value.body.data))
              && |r.value.body.data| <= MAX_BODY_SIZE
    ensures r.Some? && why.None? && exporter.None? ==>
              r.value.Value() == ResourceResponse(uid.data, 404, NO_SUCH_RESOURCE)
                && r.value.body.capacity == |NO_SUCH_RESOURCE|
    ensures r.Some? && exporter.None? ==>
              var found := budget.LevelAt(old(budget.accesses) + 1, old(budget.held) + uid.capacity);
              why == if found + |NO_SUCH_RESOURCE| <= budget.limit then None
                     else Some(Memory(|NO_SUCH_RESOURCE|, found))
    ensures r.Some? && why.Some? ==>
              && r.value.Value() == ErrorFor(uid.data) && r.value.retained.bytes == uid.capacity
              && (exporter.Some? ==>
                    match why.value
                    case Memory(n, found) => found <= budget.limit < found + n
                    case Allocator => AllocatorRefuses(exporter.value, memory)
                    case _ => Download(exporter.value) == None)
    ensures exporter.Some? && Download(exporter.value).Some?
            && NothingRefused(exporter.value, memory, budget, old(budget.held) + uid.capacity) ==>
              r.Some? && why.None?
  {
    RoomForUid(exporter, memory, budget, uid.capacity);
    hide AllocatorRefuses;
    hide NothingRefused;
    hide Download;
    hide ValidUtf8;
    var reservation;
    why := None;
    reservation, seen := budget.TryReserve(uid.capacity);
    if reservation.None? {
      return None, seen, None;
    }
    var retained := reservation.value;
    var response;
    if exporter.None? {
      response, why := AnswerUnknown(uid, retained);
    } else {
      response, why := AnswerFetched(uid, exporter.value, memory, retained);
    }
    return Some(response), seen, why;
  }

  /** The fixed 404, if there is room for its text, or the error. */
  method AnswerUnknown(uid: ByteVec, retained: MemoryReservation)
    returns (response: BudgetedResponse, why: Option<Failure>)
    requires uid.Valid() && retained.Valid() && retained.bytes == uid.capacity
    modifies retained, retained.budget
    ensures response.Valid() && response.uid == uid && response.retained == retained && fresh(response)
    ensures retained.budget.held == old(retained.budget.held) + response.body.capacity
    ensures var found := old(retained.budget.Level());
            why == if found + |NO_SUCH_RESOURCE| <= retained.budget.limit then None
                   else Some(Memory(|NO_SUCH_RESOURCE|, found))
    ensures response.Value() ==
              if why.None? then ResourceResponse(uid.data, 404, NO_SUCH_RESOURCE) else ErrorFor(uid.data)
    ensures response.body.capacity == if why.None? then |NO_SUCH_RESOURCE| else 0
  {
    var ok, found := retained.TryGrow(|NO_SUCH_RESOURCE|);
    var body: ByteVec;
    if ok {
      body := new ByteVec.ToOwned(NO_SUCH_RESOURCE);
      response := new BudgetedResponse.FromReserved(uid, 404, body, retained);
      return response, None;
    }
    body := new ByteVec.Empty();
    response := new BudgetedResponse.FromReserved(uid, 500, body, retained);
    return response, Some(Memory(|NO_SUCH_RESOURCE|, found));
  }

  /** The exporter's own answer, or the error with everything but the uid given back. */
  method AnswerFetched(uid: ByteVec, exporter: Reply, memory: Answers, retained: MemoryReservation)
    returns (response: BudgetedResponse, why: Option<Failure>)
    requires uid.Valid() && retained.Valid() && retained.bytes == uid.capacity
    modifies retained, retained.budget
    ensures response.Valid() && response.uid == uid && response.retained == retained && fresh(response)
    ensures retained.budget.held == old(retained.budget.held) + response.body.capacity
    ensures why.None? ==>
              && response.uid.data == uid.data && |response.body.data| <= MAX_BODY_SIZE
              && Download(exporter) == Some((response.status, response.body.data))
    ensures why.Some? ==>
              && response.Value() == ErrorFor(uid.data) && response.body.capacity == 0
              && match why.value
                 case Memory(n, found) => found <= retained.budget.limit < found + n
                 case Allocator => AllocatorRefuses(exporter, memory)
                 case _ => Download(exporter) == None
    ensures Download(exporter).Some? && NothingRefused(exporter, memory, retained.budget, old(retained.budget.held))
            ==> why.None?
  {
    hide Download;
    hide ValidUtf8;
    hide AllocatorRefuses;
    hide NothingRefused;
    var fetched := FetchResource(exporter, memory, retained);
    if fetched.Fetched? {
      DownloadedFits(exporter);
      response := new BudgetedResponse.FromReserved(uid, fetched.status, fetched.body, retained);
      return response, None;
    }
    retained.ShrinkTo(uid.capacity);
    var body := new ByteVec.Empty();
    response := new BudgetedResponse.FromReserved(uid, 500, body, retained);
    return response, Some(fetched.why);
  }

  lemma {:induction false} DownloadedFits(reply: Reply)
    ensures Download(reply).Some? ==> |Download(reply).value.1| <= MAX_BODY_SIZE
  {
  }
}
