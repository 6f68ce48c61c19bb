/**
 The memory budget, its reservations and budgeted responses as one worker uses them. The rest of the
 process shares the counter: what it holds at each access of this worker is an input, and so is what the
 allocator answers.
 */
module Memory {
  import opened Options
  import opened Bytes
  import opened Protocol

  /** The capacity needed for `length` bytes: as it is if they fit, else the length and what the allocator adds. */
  function Enlarged(capacity: nat, length: nat, answer: Option<nat>): (r: nat)
    ensures r >= capacity && r >= length
  {
    if length <= capacity then capacity else length + (if answer.Some? then answer.value else 0)
  }

  /** A growable byte buffer, as `Vec<u8>` and `String` are: the allocator may give more than was asked for. */
  class ByteVec {
    var data: bytes
    var capacity: nat

    ghost predicate Valid()
      reads this
    {
      |data| <= capacity
    }

    /** No allocation at all. */
    constructor Empty()
      ensures Valid() && data == [] && capacity == 0
    {
      data, capacity := [], 0;
    }

    /** The allocator gives `spare` bytes more than the `n` it was asked for. */
    constructor WithCapacity(n: nat, spare: nat)
      ensures Valid() && data == [] && capacity == n + spare
    {
      data, capacity := [], n + spare;
    }

    /** A copy of a literal is exactly as large as the literal. */
    constructor ToOwned(s: bytes)
      ensures Valid() && data == s && capacity == |s|
    {
      data, capacity := s, |s|;
    }

    /** A finished string handed over by code that left `spare` bytes unused. */
    constructor Produced(s: bytes, spare: nat)
      ensures Valid() && data == s && capacity == |s| + spare
    {
      data, capacity := s, |s| + spare;
    }

    /** Makes room for `additional` more bytes. If there is none, `answer` is the allocator's: no, or what it adds. */
    method TryReserveExact(additional: nat, answer: Option<nat>) returns (ok: bool)
      requires Valid()
      modifies this`capacity
      ensures Valid() && (ok <==> |data| + additional <= old(capacity) || answer.Some?)
      ensures capacity == if ok then Enlarged(old(capacity), |data| + additional, answer) else old(capacity)
    {
      ok := true;
      if capacity < |data| + additional {
        ok := answer.Some?;
        if ok {
          capacity := |data| + additional + answer.value;
        }
      }
    }

    /** Appends without allocating. */
    method Extend(chunk: bytes)
      requires Valid() && |data| + |chunk| <= capacity
      modifies this`data
      ensures Valid() && data == old(data) + chunk
    {
      data := data + chunk;
    }
  }

  class MemoryBudget {
    const limit: nat
    /** What the rest of the process wants to hold when this worker accesses the counter for the `i`-th time. */
    const others: nat -> nat
    var used: nat
    /** The part of `used` that belongs to reservations of this worker. */
    var held: nat
    /** How often this worker has accessed the counter. */
    var accesses: nat
    var highWatermark: nat

    ghost predicate Valid()
      reads this
    {
      held <= used <= limit
    }

    /** The counter at access `i` of a worker that holds `share`: nobody goes beyond the limit. */
    function LevelAt(i: nat, share: nat): (level: nat)
      ensures level <= limit && (share <= limit ==> share <= level <= share + others(i))
      ensures level == share + others(i) || (level == limit < share + others(i))
    {
      if share + others(i) <= limit then share + others(i) else limit
    }

    /** What the next operation of this worker finds in the counter. */
    function Level(): nat
      reads this
    {
      LevelAt(accesses, held)
    }

    constructor (limit: nat, others: nat -> nat)
      ensures Valid() && this.limit == limit && this.others == others
      ensures used == held == accesses == highWatermark == 0
    {
      this.limit, this.others := limit, others;
      used, held, accesses, highWatermark := 0, 0, 0, 0;
    }

    /** Everybody else's operations, up to the next access of this worker. */
    method Interfere()
      requires Valid()
      modifies `used, `accesses, `highWatermark
      ensures Valid() && used == old(Level()) && accesses == old(accesses) + 1
      ensures highWatermark >= old(highWatermark)
    {
      used := LevelAt(accesses, held);
      accesses := accesses + 1;
      var peak: nat :| peak >= highWatermark;
      highWatermark := peak;
    }

    /** Takes `bytes` if they fit next to what is taken at that moment, `seen`. */
    method TryAcquire(bytes: nat) returns (ok: bool, seen: nat)
      requires Valid()
      modifies this
      ensures Valid() && seen == old(Level()) && accesses == old(accesses) + 1
      ensures ok == (seen + bytes <= limit)
      ensures held == old(held) + (if ok then bytes else 0) && used == seen + (if ok then bytes else 0)
      ensures highWatermark >= old(highWatermark) && (ok ==> highWatermark >= used)
    {
      Interfere();
      seen := used;
      ok := seen + bytes <= limit;
      if ok {
        used, held := used + bytes, held + bytes;
        if highWatermark < used {
          highWatermark := used;
        }
      }
    }

    method TryReserve(bytes: nat) returns (r: Option<MemoryReservation>, seen: nat)
      requires Valid()
      modifies this
      ensures Valid() && seen == old(Level()) && accesses == old(accesses) + 1
      ensures r.Some? == (seen + bytes <= limit)
      ensures held == old(held) + (if r.Some? then bytes else 0) && used == seen + (if r.Some? then bytes else 0)
      ensures r.Some? ==> fresh(r.value) && r.value.budget == this && r.value.bytes == bytes && r.value.Valid()
    {
      var ok;
      ok, seen := TryAcquire(bytes);
      r := None;
      if ok {
        var reservation := new MemoryReservation(this, bytes);
        r := Some(reservation);
      }
    }
  }

  class MemoryReservation {
    const budget: MemoryBudget
    var bytes: nat

    ghost predicate Valid()
      reads this, budget
    {
      budget.Valid() && bytes <= budget.held
    }

    constructor (budget: MemoryBudget, bytes: nat)
      ensures this.budget == budget && this.bytes == bytes
    {
      this.budget, this.bytes := budget, bytes;
    }

    method TryGrow(additional: nat) returns (ok: bool, seen: nat)
      requires Valid()
      modifies this, budget
      ensures Valid() && seen == old(budget.Level()) && budget.accesses == old(budget.accesses) + 1
      ensures ok == (seen + additional <= budget.limit)
      ensures bytes == old(bytes) + (if ok then additional else 0)
      ensures budget.held == old(budget.held) + (if ok then additional else 0)
      ensures budget.used == seen + (if ok then additional else 0)
    {
      ok, seen := budget.TryAcquire(additional);
      if ok {
        bytes := bytes + additional;
      }
    }

    /** The difference leaves the counter, whatever that has become at that moment. */
    method ShrinkTo(n: nat)
      requires Valid() && n <= bytes
      modifies this, budget
      ensures Valid() && bytes == n && budget.held == old(budget.held) - (old(bytes) - n)
      ensures budget.used == old(budget.Level()) - (old(bytes) - n) && budget.accesses == old(budget.accesses) + 1
    {
      var released := bytes - n;
      bytes := n;
      budget.Interfere();
      budget.used, budget.held := budget.used - released, budget.held - released;
    }

    method Drop()
      requires Valid()
      modifies this, budget
      ensures budget.Valid() && bytes == 0 && budget.held == old(budget.held) - old(bytes)
      ensures budget.used == old(budget.Level()) - old(bytes) && budget.accesses == old(budget.accesses) + 1
    {
      ShrinkTo(0);
    }
  }

  /** A response whose buffers are covered by a reservation of exactly their size. */
  class BudgetedResponse {
    var uid: ByteVec
    var status: u16
    var body: ByteVec
    const retained: MemoryReservation

    ghost predicate Valid()
      reads this, uid, body, retained, retained.budget
    {
      uid.Valid() && body.Valid() && retained.Valid() && retained.bytes == uid.capacity + body.capacity
    }

    function Value(): ResourceResponse
      reads this, uid, body
    {
      ResourceResponse(uid.data, status, body.data)
    }

    /** The reservation must already cover both buffers; what it has beyond them is given back. */
    constructor FromReserved(uid: ByteVec, status: u16, body: ByteVec, retained: MemoryReservation)
      requires uid.Valid() && body.Valid() && retained.Valid() && uid.capacity + body.capacity <= retained.bytes
      modifies retained, retained.budget
      ensures Valid() && this.retained == retained && this.uid == uid && this.body == body
      ensures Value() == ResourceResponse(uid.data, status, body.data)
      ensures retained.budget.held == old(retained.budget.held) - (old(retained.bytes) - uid.capacity - body.capacity)
      ensures retained.budget.used == old(retained.budget.Level())
                  - (old(retained.bytes) - uid.capacity - body.capacity)
      ensures retained.budget.accesses == old(retained.budget.accesses) + 1
    {
      this.uid, this.status, this.body, this.retained := uid, status, body, retained;
      new;
      retained.ShrinkTo(uid.capacity + body.capacity);
    }

    constructor Make(uid: ByteVec, status: u16, body: ByteVec, retained: MemoryReservation)
      requires uid.Valid() && body.Valid() && retained.Valid() && uid.capacity + body.capacity == retained.bytes
      ensures Valid() && this.retained == retained && this.uid == uid && this.body == body
      ensures Value() == ResourceResponse(uid.data, status, body.data)
    {
      this.uid, this.status, this.body, this.retained := uid, status, body, retained;
    }

    static method TryNew(budget: MemoryBudget, uid: ByteVec, status: u16, body: ByteVec)
      returns (r: Option<BudgetedResponse>, seen: nat)
      requires budget.Valid() && uid.Valid() && body.Valid()
      modifies budget
      ensures budget.Valid() && seen == old(budget.Level()) && budget.accesses == old(budget.accesses) + 1
      ensures r.Some? == (seen + uid.capacity + body.capacity <= budget.limit)
      ensures budget.held == old(budget.held) + (if r.Some? then uid.capacity + body.capacity else 0)
      ensures budget.used == seen + (if r.Some? then uid.capacity + body.capacity else 0)
      ensures r.Some? ==>
                && fresh(r.value) && fresh(r.value.retained) && r.value.retained.budget == budget && r.value.Valid()
                && r.value.Value() == ResourceResponse(uid.data, status, body.data)
    {
      var reservation;
      reservation, seen := budget.TryReserve(uid.capacity + body.capacity);
      r := None;
      if reservation.Some? {
        var response := new BudgetedResponse.Make(uid, status, body, reservation.value);
        r := Some(response);
      }
    }

    /** Keeps the uid, gives up the body and its memory. */
    method DowngradeToError()
      requires Valid()
      modifies this, retained, retained.budget
      ensures Valid() && uid == old(uid) && Value() == ErrorFor(old(Value()).uid) && fresh(body)
      ensures retained.bytes == uid.capacity
      ensures retained.budget.held == old(retained.budget.held) - (old(retained.bytes) - retained.bytes)
      ensures retained.budget.used == old(retained.budget.Level()) - (old(retained.bytes) - retained.bytes)
      ensures retained.budget.accesses == old(retained.budget.accesses) + 1
    {
      body := new ByteVec.Empty();
      status := 500;
      retained.ShrinkTo(uid.capacity);
    }

    method Drop()
      requires Valid()
      modifies retained, retained.budget
      ensures retained.budget.Valid() && retained.budget.held == old(retained.budget.held) - old(retained.bytes)
      ensures retained.budget.used == old(retained.budget.Level()) - old(retained.bytes)
      ensures retained.budget.accesses == old(retained.budget.accesses) + 1
    {
      retained.Drop();
    }
  }

  /**
   A reservation that is dropped leaves no trace: if the rest of the process holds the same at both accesses, the
   counter ends where the first of them found it.
   */
  method ReserveAndDrop(budget: MemoryBudget, bytes: nat) returns (ok: bool)
    requires budget.Valid()
    modifies budget
    ensures budget.Valid() && budget.held == old(budget.held)
    ensures ok == (old(budget.Level()) + bytes <= budget.limit)
    ensures budget.others(old(budget.accesses)) == budget.others(old(budget.accesses) + 1) ==>
              budget.used == old(budget.Level())
  {
    var r, seen := budget.TryReserve(bytes);
    ok := r.Some?;
    if ok {
      r.value.Drop();
    }
  }
}
