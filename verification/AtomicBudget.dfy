/**
 The memory budget at the grain of single atomic operations. Any number of reservations are used
 concurrently; each belongs to one owner, so at most one operation is in progress on it. A load, a
 compare-exchange, `fetch_max` and `fetch_sub` are one step each; updating `bytes` is a step of its own.
 */
module AtomicBudget {
  import opened Options

  /** Where a reservation is. `bytes` is what it has recorded; `began` is the moment its operation began. */
  datatype Cell =
    | Free
    | Held(bytes: nat)
    | Trying(bytes: nat, first: bool, n: nat, began: nat)
    | Loaded(bytes: nat, first: bool, n: nat, began: nat, seen: nat, at: nat)  // the value loaded at moment `at`
    | Granted(bytes: nat, n: nat, previous: nat)                               // exchanged; `fetch_max` pending
    | Marked(bytes: nat, n: nat)                                               // `fetch_max` done; not yet recorded
    | Releasing(bytes: nat, released: nat, gone: bool)                         // recorded; `fetch_sub` pending

  datatype Refusal = Refusal(n: nat, available: nat, began: nat, ended: nat)

  /** `history` holds every value the counter has had; its last index is the present moment. */
  datatype Budget = Budget(limit: nat, usizeMax: nat, used: nat, high: nat, cells: seq<Cell>, history: seq<nat>,
      refusals: seq<Refusal>)

  datatype Op =
    | BeginReserve(n: nat)
    | BeginGrow(n: nat)
    | Load
    | Exchange(spurious: bool)
    | Refuse
    | Mark
    | Record
    | BeginShrink(to: nat)
    | BeginDrop
    | Release

  function New(limit: nat, usizeMax: nat, owners: nat): Budget {
    Budget(limit, usizeMax, 0, 0, seq(owners, _ => Free), [0], [])
  }

  function Now(b: Budget): nat {
    if b.history == [] then 0 else |b.history| - 1
  }

  function WithCell(b: Budget, i: nat, c: Cell): Budget
    requires i < |b.cells|
  {
    b.(cells := b.cells[i := c])
  }

  function WithUsed(b: Budget, used: nat): Budget {
    b.(used := used, history := b.history + [used])
  }

  /** `checked_add` on the machine's usize, then the limit. */
  function Fitting(b: Budget, seen: nat, n: nat): Option<nat> {
    if seen + n <= b.usizeMax && seen + n <= b.limit then Some(seen + n) else None
  }

  function WrappingSub(a: nat, r: nat, usizeMax: nat): nat {
    (a - r) % (usizeMax + 1)
  }

  function WrappingAdd(a: nat, n: nat, usizeMax: nat): nat {
    (a + n) % (usizeMax + 1)
  }

  function SaturatingSub(a: nat, r: nat): nat {
    if r <= a then a - r else 0
  }

  function Max(a: nat, b: nat): nat {
    if a < b then b else a
  }

  /** One atomic step of the owner of reservation `i`. */
  function Step(b: Budget, i: nat, op: Op): Option<Budget> {
    if i >= |b.cells| then None
    else
      match (b.cells[i], op)
      case (Free, BeginReserve(n)) => if n <= b.usizeMax then Some(WithCell(b, i, Trying(0, true, n, Now(b)))) else None
      case (Held(bytes), BeginGrow(n)) =>
        if n <= b.usizeMax then Some(WithCell(b, i, Trying(bytes, false, n, Now(b)))) else None
      case (Trying(bytes, first, n, began), Load) =>
        Some(WithCell(b, i, Loaded(bytes, first, n, began, b.used, Now(b))))
      case (Loaded(bytes, first, n, began, seen, at), Exchange(spurious)) =>
        var next :- Fitting(b, seen, n);
        if b.used == seen && !spurious then Some(WithUsed(WithCell(b, i, Granted(bytes, n, seen)), next))
        else Some(WithCell(b, i, Loaded(bytes, first, n, began, b.used, Now(b))))
      case (Loaded(bytes, first, n, began, seen, at), Refuse) =>
        if Fitting(b, seen, n).Some? then None
        else
          Some(WithCell(b, i, if first then Free else Held(bytes))
               .(refusals := b.refusals + [Refusal(n, SaturatingSub(b.limit, seen), began, Now(b))]))
      case (Granted(bytes, n, previous), Mark) =>
        Some(WithCell(b, i, Marked(bytes, n)).(high := Max(b.high, WrappingAdd(previous, n, b.usizeMax))))
      case (Marked(bytes, n), Record) => Some(WithCell(b, i, Held(WrappingAdd(bytes, n, b.usizeMax))))
      case (Held(bytes), BeginShrink(to)) =>
        if to <= bytes then Some(WithCell(b, i, Releasing(to, bytes - to, false))) else None
      case (Held(bytes), BeginDrop) => Some(WithCell(b, i, Releasing(0, bytes, true)))
      case (Releasing(bytes, released, gone), Release) =>
        Some(WithUsed(WithCell(b, i, if gone then Free else Held(bytes)), WrappingSub(b.used, released, b.usizeMax)))
      case _ => None
  }

  // ----------------------------------------------------------------- invariant

  /**
   What a reservation has taken from the counter: recorded, granted but not yet recorded, recorded but not yet
   released.
   */
  function Claim(c: Cell): nat {
    match c
    case Free => 0
    case Held(bytes) => bytes
    case Trying(bytes, _, _, _) => bytes
    case Loaded(bytes, _, _, _, _, _) => bytes
    case Granted(bytes, n, _) => bytes + n
    case Marked(bytes, n) => bytes + n
    case Releasing(bytes, released, _) => bytes + released
  }

  function Claims(cells: seq<Cell>): nat {
    if cells == [] then 0 else Claim(cells[0]) + Claims(cells[1..])
  }

  lemma {:induction false} ClaimsUpdate(cells: seq<Cell>, i: nat, c: Cell)
    requires i < |cells|
    ensures Claims(cells[i := c]) + Claim(cells[i]) == Claims(cells) + Claim(c)
    ensures Claim(cells[i]) <= Claims(cells)
  {
    hide Claim;
    if i > 0 {
      ClaimsUpdate(cells[1..], i - 1, c);
      assert cells[i := c][1..] == cells[1..][i - 1 := c];
    } else {
      assert cells[i := c][1..] == cells[1..];
    }
  }

  /** The level a grant reached whose `fetch_max` is still to come. */
  function PendingLevel(c: Cell): nat {
    match c
    case Granted(_, n, previous) => previous + n
    case _ => 0
  }

  /** The largest value the counter ever had. */
  function Peak(history: seq<nat>): nat {
    if history == [] then 0 else Max(Peak(history[..|history| - 1]), history[|history| - 1])
  }

  predicate LevelsOk(b: Budget) {
    && b.high <= Peak(b.history)
    && (forall i :: 0 <= i < |b.cells| ==> PendingLevel(b.cells[i]) <= Peak(b.history))
    && (b.high == Peak(b.history) || exists i :: 0 <= i < |b.cells| && PendingLevel(b.cells[i]) == Peak(b.history))
  }

  predicate HistoryOk(b: Budget) {
    && b.history != [] && b.history[|b.history| - 1] == b.used
    && (forall k :: 0 <= k < |b.history| ==> b.history[k] <= b.limit)
    && (forall i :: 0 <= i < |b.cells| ==> MomentOk(b.history, b.cells[i]))
  }

  /**
   What was loaded was the counter's value at a moment since the operation began; a new or dropped reservation
   records nothing.
   */
  predicate MomentOk(history: seq<nat>, c: Cell) {
    && ((c.Trying? || c.Loaded?) && c.first ==> c.bytes == 0)
    && (c.Releasing? && c.gone ==> c.bytes == 0)
    && (c.Trying? ==> c.began < |history|)
    && (c.Loaded? ==> c.began <= c.at < |history| && history[c.at] == c.seen)
  }

  predicate RefusalOk(b: Budget, r: Refusal) {
    && r.began <= r.ended < |b.history|
    && exists k :: r.began <= k <= r.ended && b.history[k] + r.n > b.limit && r.available == b.limit - b.history[k]
  }

  predicate RefusalsOk(b: Budget) {
    forall j :: 0 <= j < |b.refusals| ==> RefusalOk(b, b.refusals[j])
  }

  predicate Ok(b: Budget) {
    && b.used == Claims(b.cells) <= b.limit <= b.usizeMax
    && HistoryOk(b) && LevelsOk(b) && RefusalsOk(b)
  }

  lemma {:induction false} PeakPush(history: seq<nat>, x: nat)
    ensures Peak(history + [x]) == Max(Peak(history), x)
  {
    assert (history + [x])[..|history|] == history;
  }

  lemma {:induction false} PeakBounds(history: seq<nat>, k: nat)
    requires k < |history|
    ensures history[k] <= Peak(history)
  {
    if k < |history| - 1 {
      PeakBounds(history[..|history| - 1], k);
    }
  }

  lemma {:induction false} NewOk(limit: nat, usizeMax: nat, owners: nat)
    requires limit <= usizeMax
    ensures Ok(New(limit, usizeMax, owners))
  {
    var b := New(limit, usizeMax, owners);
    NothingClaimed(b.cells);
    assert Peak([0][..0]) == 0;
    assert Peak(b.history) == 0;
  }

  lemma {:induction false} NothingClaimed(cells: seq<Cell>)
    requires forall i :: 0 <= i < |cells| ==> cells[i].Free?
    ensures Claims(cells) == 0
  {
    if cells != [] {
      NothingClaimed(cells[1..]);
    }
  }

  /** No release wraps around, and no recorded size does. */
  lemma {:induction false} NothingWraps(b: Budget, i: nat)
    requires Ok(b) && i < |b.cells|
    ensures b.cells[i].Releasing? ==>
              WrappingSub(b.used, b.cells[i].released, b.usizeMax) == b.used - b.cells[i].released
    ensures b.cells[i].Marked? ==>
              WrappingAdd(b.cells[i].bytes, b.cells[i].n, b.usizeMax) == b.cells[i].bytes + b.cells[i].n <= b.limit
    ensures b.cells[i].Granted? ==>
              WrappingAdd(b.cells[i].previous, b.cells[i].n, b.usizeMax) == b.cells[i].previous + b.cells[i].n
  {
    ClaimsUpdate(b.cells, i, Free);
    PeakAtMost(b.history, b.limit);
    hide Claims;
    hide Peak;
    match b.cells[i] {
      case Releasing(_, released, _) => SmallRemainder(b.used - released, b.usizeMax);
      case Marked(bytes, n) => SmallRemainder(bytes + n, b.usizeMax);
      case Granted(_, n, previous) =>
        assert PendingLevel(b.cells[i]) == previous + n;
        SmallRemainder(previous + n, b.usizeMax);
      case _ =>
    }
  }

  lemma {:induction false} SmallRemainder(x: nat, usizeMax: nat)
    requires x <= usizeMax
    ensures x % (usizeMax + 1) == x
  {
  }

  lemma {:induction false} PeakAtMost(history: seq<nat>, limit: nat)
    requires forall k :: 0 <= k < |history| ==> history[k] <= limit
    ensures Peak(history) <= limit
  {
    if history != [] {
      PeakAtMost(history[..|history| - 1], limit);
    }
  }

  /** A step changes one reservation, and the counter by exactly what that reservation claims more or less. */
  lemma {:induction false} StepIsLocal(b: Budget, i: nat, op: Op)
    requires Ok(b) && Step(b, i, op).Some?
    ensures var b' := Step(b, i, op).value;
            && i < |b.cells| && |b'.cells| == |b.cells| && b'.cells == b.cells[i := b'.cells[i]]
            && b'.used - Claim(b'.cells[i]) == b.used - Claim(b.cells[i])
            && b'.used <= b'.limit == b.limit && b'.usizeMax == b.usizeMax && b'.history != []
  {
    if i < |b.cells| {
      NothingWraps(b, i);
      assert MomentOk(b.history, b.cells[i]);
    }
    hide HistoryOk;
    hide LevelsOk;
    hide RefusalsOk;
    hide Claims;
    hide WrappingAdd;
    hide WrappingSub;
  }

  lemma {:induction false} StepKeepsClaims(b: Budget, i: nat, op: Op)
    requires Ok(b) && Step(b, i, op).Some?
    ensures var b' := Step(b, i, op).value; b'.used == Claims(b'.cells) <= b'.limit <= b'.usizeMax
  {
    hide Step;
    hide HistoryOk;
    hide LevelsOk;
    hide RefusalsOk;
    hide Claim;
    hide Claims;
    StepIsLocal(b, i, op);
    ClaimsUpdate(b.cells, i, Step(b, i, op).value.cells[i]);
  }

  /** A step adds at most the counter's new value to the history, and leaves its own reservation at a true moment. */
  lemma {:induction false} StepMoment(b: Budget, i: nat, op: Op)
    requires HistoryOk(b) && i < |b.cells| && Step(b, i, op).Some?
    ensures var b' := Step(b, i, op).value;
            && ((b'.history == b.history && b'.used == b.used) || b'.history == b.history + [b'.used])
            && MomentOk(b'.history, b'.cells[i])
  {
    assert MomentOk(b.history, b.cells[i]);
    hide WrappingAdd;
    hide WrappingSub;
  }

  lemma {:induction false} MomentStays(history: seq<nat>, x: nat, c: Cell)
    requires MomentOk(history, c)
    ensures MomentOk(history + [x], c)
  {
  }

  lemma {:induction false} HistoryExtended(b: Budget, b': Budget, i: nat)
    requires HistoryOk(b) && i < |b.cells| == |b'.cells| && b'.cells == b.cells[i := b'.cells[i]]
    requires (b'.history == b.history && b'.used == b.used) || b'.history == b.history + [b'.used]
    requires b'.used <= b'.limit == b.limit && MomentOk(b'.history, b'.cells[i])
    ensures HistoryOk(b')
  {
    hide MomentOk;
    forall j | 0 <= j < |b'.cells| ensures MomentOk(b'.history, b'.cells[j]) {
      if j != i {
        assert b'.cells[j] == b.cells[j];
        MomentStays(b.history, b'.used, b.cells[j]);
      }
    }
  }

  lemma {:induction false} StepKeepsHistory(b: Budget, i: nat, op: Op)
    requires Ok(b) && Step(b, i, op).Some?
    ensures HistoryOk(Step(b, i, op).value)
  {
    hide Step;
    hide HistoryOk;
    hide LevelsOk;
    hide RefusalsOk;
    hide Claims;
    hide Claim;
    hide MomentOk;
    StepIsLocal(b, i, op);
    StepMoment(b, i, op);
    HistoryExtended(b, Step(b, i, op).value, i);
  }

  lemma {:induction false} StepKeepsRefusals(b: Budget, i: nat, op: Op)
    requires Ok(b) && Step(b, i, op).Some?
    ensures RefusalsOk(Step(b, i, op).value)
  {
    hide LevelsOk;
    hide Claims;
    var b' := Step(b, i, op).value;
    assert b.history <= b'.history;
    forall j | 0 <= j < |b'.refusals| ensures RefusalOk(b', b'.refusals[j]) {
      if j < |b.refusals| {
        assert RefusalOk(b, b.refusals[j]);
        OldRefusal(b, b', b.refusals[j]);
      } else {
        assert MomentOk(b.history, b.cells[i]);
        assert b.history[b.cells[i].at] <= b.limit;
        assert b'.history[b.cells[i].at] + b'.refusals[j].n > b'.limit;
      }
    }
  }

  lemma {:induction false} OldRefusal(b: Budget, b': Budget, r: Refusal)
    requires RefusalOk(b, r) && b.history <= b'.history && b.limit == b'.limit
    ensures RefusalOk(b', r)
  {
    var k :| r.began <= k <= r.ended && b.history[k] + r.n > b.limit && r.available == b.limit - b.history[k];
    assert b'.history[k] == b.history[k];
  }

  /** What a step can do to the high watermark, to the level of the reservation it belongs to, and to the counter. */
  predicate LevelStep(b: Budget, b': Budget, i: nat) {
    && i < |b.cells| && |b'.cells| == |b.cells| && b'.cells == b.cells[i := b'.cells[i]]
    && var now, next := PendingLevel(b.cells[i]), PendingLevel(b'.cells[i]);
       || (b'.history == b.history && b'.high == b.high && next == now)
       || (b'.history == b.history && b'.high == Max(b.high, now) && next == 0)
       || (b'.history == b.history + [next] && b'.high == b.high && now == 0)
       || (b'.history == b.history + [b'.used] && b'.high == b.high && next == now && b'.used <= Peak(b.history))
  }

  lemma {:induction false} StepIsLevelStep(b: Budget, i: nat, op: Op)
    requires Ok(b) && Step(b, i, op).Some?
    ensures LevelStep(b, Step(b, i, op).value, i)
  {
    PeakBounds(b.history, |b.history| - 1);
    StepIsLocal(b, i, op);
    NothingWraps(b, i);
    hide Claims;
    hide RefusalsOk;
    hide LevelsOk;
    hide Peak;
    hide MomentOk;
  }

  /** Some reservation other than `i` has its update to the peak still to come. */
  lemma {:induction false} PeakPending(b: Budget) returns (j: nat)
    requires LevelsOk(b) && b.high != Peak(b.history)
    ensures j < |b.cells| && PendingLevel(b.cells[j]) == Peak(b.history)
  {
    j :| 0 <= j < |b.cells| && PendingLevel(b.cells[j]) == Peak(b.history);
  }

  /** `LevelsOk` from a watermark that is the peak, or from the reservation that has the peak pending. */
  lemma {:induction false} LevelsFrom(b: Budget, b': Budget, i: nat, top: nat)
    requires LevelsOk(b) && i < |b.cells| && |b'.cells| == |b.cells| && b'.cells == b.cells[i := b'.cells[i]]
    requires b'.high <= Peak(b'.history) && PendingLevel(b'.cells[i]) <= Peak(b'.history)
    requires Peak(b.history) <= Peak(b'.history)
    requires b'.high == Peak(b'.history) || (top < |b'.cells| && PendingLevel(b'.cells[top]) == Peak(b'.history))
    ensures LevelsOk(b')
  {
    hide Peak;
    hide PendingLevel;
    forall j | 0 <= j < |b'.cells| ensures PendingLevel(b'.cells[j]) <= Peak(b'.history) {
      if j != i {
        assert b'.cells[j] == b.cells[j];
      }
    }
  }

  /** The pending update of reservation `i` takes effect. */
  lemma {:induction false} MarkKeepsLevels(b: Budget, b': Budget, i: nat)
    requires LevelsOk(b) && i < |b.cells| && |b'.cells| == |b.cells| && b'.cells == b.cells[i := b'.cells[i]]
    requires b'.history == b.history && b'.high == Max(b.high, PendingLevel(b.cells[i]))
    requires PendingLevel(b'.cells[i]) == 0
    ensures LevelsOk(b')
  {
    hide Peak;
    hide PendingLevel;
    var top := i;
    if b.high != Peak(b.history) {
      top := PeakPending(b);
    }
    LevelsFrom(b, b', i, top);
  }

  /** Nothing pending changes; the counter keeps its value or takes one below its peak. */
  lemma {:induction false} SameLevelsKept(b: Budget, b': Budget, i: nat)
    requires LevelsOk(b) && i < |b.cells| && |b'.cells| == |b.cells| && b'.cells == b.cells[i := b'.cells[i]]
    requires b'.high == b.high && PendingLevel(b'.cells[i]) == PendingLevel(b.cells[i])
    requires Peak(b'.history) == Peak(b.history)
    ensures LevelsOk(b')
  {
    hide Peak;
    hide PendingLevel;
    var top := i;
    if b.high != Peak(b.history) {
      top := PeakPending(b);
    }
    LevelsFrom(b, b', i, top);
  }

  /** A grant raises the counter to a level whose update is pending. */
  lemma {:induction false} GrantKeepsLevels(b: Budget, b': Budget, i: nat)
    requires LevelsOk(b) && i < |b.cells| && |b'.cells| == |b.cells| && b'.cells == b.cells[i := b'.cells[i]]
    requires b'.high == b.high && PendingLevel(b.cells[i]) == 0
    requires Peak(b'.history) == Max(Peak(b.history), PendingLevel(b'.cells[i]))
    ensures LevelsOk(b')
  {
    hide Peak;
    hide PendingLevel;
    var top := i;
    if b.high != Peak(b.history) && PendingLevel(b'.cells[i]) < Peak(b.history) {
      top := PeakPending(b);
      assert top != i;
    }
    LevelsFrom(b, b', i, top);
  }

  lemma {:induction false} LevelStepKeepsLevels(b: Budget, b': Budget, i: nat)
    requires LevelsOk(b) && LevelStep(b, b', i)
    ensures LevelsOk(b')
  {
    hide LevelsOk;
    hide Peak;
    hide PendingLevel;
    PeakPush(b.history, PendingLevel(b'.cells[i]));
    PeakPush(b.history, b'.used);
    var now, next := PendingLevel(b.cells[i]), PendingLevel(b'.cells[i]);
    if b'.history == b.history {
      if b'.high == b.high && next == now {
        SameLevelsKept(b, b', i);
      } else {
        MarkKeepsLevels(b, b', i);
      }
    } else if b'.history == b.history + [next] && now == 0 {
      GrantKeepsLevels(b, b', i);
    } else {
      SameLevelsKept(b, b', i);
    }
  }

  lemma {:induction false} StepKeepsLevels(b: Budget, i: nat, op: Op)
    requires Ok(b) && Step(b, i, op).Some?
    ensures LevelsOk(Step(b, i, op).value)
  {
    StepIsLevelStep(b, i, op);
    LevelStepKeepsLevels(b, Step(b, i, op).value, i);
    hide Step;
    hide LevelStep;
    hide LevelsOk;
  }

  lemma {:induction false} StepKeepsOk(b: Budget, i: nat, op: Op)
    requires Ok(b) && Step(b, i, op).Some?
    ensures Ok(Step(b, i, op).value)
  {
    StepKeepsClaims(b, i, op);
    StepKeepsHistory(b, i, op);
    StepKeepsLevels(b, i, op);
    StepKeepsRefusals(b, i, op);
    hide Step;
    hide HistoryOk;
    hide LevelsOk;
    hide RefusalsOk;
  }

  // -------------------------------------------------------------------- all runs

  datatype Turn = Turn(i: nat, op: Op)

  function Run(b: Budget, turns: seq<Turn>): Option<Budget>
    decreases |turns|
  {
    if turns == [] then Some(b)
    else
      var b' :- Step(b, turns[0].i, turns[0].op);
      Run(b', turns[1..])
  }

  lemma {:induction false} RunKeepsOk(b: Budget, turns: seq<Turn>)
    requires Ok(b) && Run(b, turns).Some?
    ensures Ok(Run(b, turns).value)
    decreases |turns|
  {
    hide Ok;
    hide Step;
    if turns != [] {
      StepKeepsOk(b, turns[0].i, turns[0].op);
      RunKeepsOk(Step(b, turns[0].i, turns[0].op).value, turns[1..]);
    }
  }

  /** `b` is what some interleaving of the owners' operations makes of a new budget. */
  ghost predicate Reachable(b: Budget) {
    exists limit: nat, usizeMax: nat, owners: nat, turns ::
      limit <= usizeMax && Run(New(limit, usizeMax, owners), turns) == Some(b)
  }

  lemma {:induction false} ReachableOk(b: Budget)
    requires Reachable(b)
    ensures Ok(b)
  {
    var limit: nat, usizeMax: nat, owners: nat, turns :|
      limit <= usizeMax && Run(New(limit, usizeMax, owners), turns) == Some(b);
    hide Ok;
    NewOk(limit, usizeMax, owners);
    RunKeepsOk(New(limit, usizeMax, owners), turns);
  }

  /**
   Whatever the interleaving, the counter is the recorded sizes plus what is granted but not recorded plus what is
   recorded but not released; it never exceeds the limit, and neither it nor a recorded size ever wraps.
   */
  lemma {:induction false} CounterIsExact(b: Budget, i: nat)
    requires Reachable(b) && i < |b.cells|
    ensures b.used == Claims(b.cells) <= b.limit
    ensures b.cells[i].Releasing? ==> b.cells[i].released <= b.used
    ensures b.cells[i].Marked? ==> b.cells[i].bytes + b.cells[i].n <= b.limit
    ensures forall k :: 0 <= k < |b.history| ==> b.history[k] <= b.limit
  {
    ReachableOk(b);
    NothingWraps(b, i);
    ClaimsUpdate(b.cells, i, Free);
    hide Claims;
    hide LevelsOk;
    hide RefusalsOk;
  }

  predicate Settled(c: Cell) {
    c.Free? || c.Held?
  }

  function Recorded(cells: seq<Cell>): nat {
    if cells == [] then 0 else (if cells[0].Held? then cells[0].bytes else 0) + Recorded(cells[1..])
  }

  /** Between operations the counter is the sum of the live reservations; with none left it is zero. */
  lemma {:induction false} SettledCounter(b: Budget)
    requires Reachable(b) && forall i :: 0 <= i < |b.cells| ==> Settled(b.cells[i])
    ensures b.used == Recorded(b.cells)
    ensures (forall i :: 0 <= i < |b.cells| ==> b.cells[i].Free?) ==> b.used == 0
  {
    ReachableOk(b);
    SettledClaims(b.cells);
    if forall i :: 0 <= i < |b.cells| ==> b.cells[i].Free? {
      NothingClaimed(b.cells);
    }
  }

  lemma {:induction false} SettledClaims(cells: seq<Cell>)
    requires forall i :: 0 <= i < |cells| ==> Settled(cells[i])
    ensures Claims(cells) == Recorded(cells)
  {
    if cells != [] {
      assert Settled(cells[0]);
      SettledClaims(cells[1..]);
    }
  }

  /** The largest level whose `fetch_max` is still to come. */
  function PendingPeak(cells: seq<Cell>): nat {
    if cells == [] then 0 else Max(PendingLevel(cells[0]), PendingPeak(cells[1..]))
  }

  lemma {:induction false} PendingPeakIsMax(cells: seq<Cell>)
    ensures forall i :: 0 <= i < |cells| ==> PendingLevel(cells[i]) <= PendingPeak(cells)
    ensures PendingPeak(cells) == 0 || exists i :: 0 <= i < |cells| && PendingLevel(cells[i]) == PendingPeak(cells)
  {
    if cells != [] {
      PendingPeakIsMax(cells[1..]);
      assert forall i :: 1 <= i < |cells| ==> cells[i] == cells[1..][i - 1];
      if PendingPeak(cells[1..]) > PendingLevel(cells[0]) {
        var i :| 0 <= i < |cells| - 1 && PendingLevel(cells[1..][i]) == PendingPeak(cells[1..]);
        assert PendingLevel(cells[i + 1]) == PendingPeak(cells);
      } else {
        assert PendingLevel(cells[0]) == PendingPeak(cells);
      }
    }
  }

  /**
   The high watermark together with the updates still on their way is exactly the largest value the counter ever had.
   */
  lemma {:induction false} HighWatermarkIsPeak(b: Budget)
    requires Reachable(b)
    ensures Max(b.high, PendingPeak(b.cells)) == Peak(b.history)
    ensures (forall i :: 0 <= i < |b.cells| ==> !b.cells[i].Granted?) ==> b.high == Peak(b.history)
  {
    ReachableOk(b);
    PendingPeakIsMax(b.cells);
    hide Peak;
    hide PendingPeak;
    hide Claims;
    hide HistoryOk;
    hide RefusalsOk;
  }

  /** A refusal names what was available at a moment during the call, and at that moment the request did not fit. */
  lemma {:induction false} RefusalsAreTruthful(b: Budget, j: nat)
    requires Reachable(b) && j < |b.refusals|
    ensures var r := b.refusals[j];
            && r.began <= r.ended < |b.history|
            && (exists k ::
                  r.began <= k <= r.ended
                  && b.history[k] + r.n > b.limit
                  && r.available == b.limit - b.history[k])
  {
    ReachableOk(b);
    assert RefusalOk(b, b.refusals[j]);
  }

  /** An exchange with a stale value fails only because the counter has moved since the load: somebody made progress. */
  lemma {:induction false} StaleMeansProgress(b: Budget, i: nat)
    requires Reachable(b) && i < |b.cells| && b.cells[i].Loaded? && b.cells[i].seen != b.used
    ensures b.cells[i].at < Now(b)
  {
    ReachableOk(b);
    assert MomentOk(b.history, b.cells[i]);
  }

  /** An exchange with the present value grants the request if it fits; if it does not fit it can only be refused. */
  lemma {:induction false} ExchangeDecides(b: Budget, i: nat)
    requires Reachable(b) && i < |b.cells| && b.cells[i].Loaded?
    ensures var c := b.cells[i];
            && (Step(b, i, Exchange(false)).Some? <==> c.seen + c.n <= b.limit)
            && (Step(b, i, Refuse).Some? <==> c.seen + c.n > b.limit)
            && (c.seen == b.used && c.seen + c.n <= b.limit ==>
                  var b' := Step(b, i, Exchange(false)).value;
                  b'.used == b.used + c.n && b'.cells[i] == Granted(c.bytes, c.n, b.used))
  {
    ReachableOk(b);
  }

  /** The steps of one reservation by an owner nobody gets in the way of. */
  function Uncontended(i: nat, n: nat): seq<Turn> {
    [Turn(i, BeginReserve(n)), Turn(i, Load), Turn(i, Exchange(false)), Turn(i, Mark), Turn(i, Record)]
  }

  /** Left alone, a reservation that fits is granted in five steps and takes exactly its bytes. */
  lemma {:induction false} UncontendedReserve(b: Budget, i: nat, n: nat)
    requires Reachable(b) && i < |b.cells| && b.cells[i].Free? && b.used + n <= b.limit
    ensures Run(b, Uncontended(i, n)).Some?
    ensures var b' := Run(b, Uncontended(i, n)).value;
            b'.cells == b.cells[i := Held(n)] && b'.used == b.used + n && b'.refusals == b.refusals
  {
    ReachableOk(b);
    var now := Now(b);
    var b1 := WithCell(b, i, Trying(0, true, n, now));
    var b2 := WithCell(b1, i, Loaded(0, true, n, now, b.used, now));
    var b3 := WithUsed(WithCell(b2, i, Granted(0, n, b.used)), b.used + n);
    var b4 := WithCell(b3, i, Marked(0, n)).(high := Max(b.high, b.used + n));
    var b5 := WithCell(b4, i, Held(n));
    SmallRemainder(b.used + n, b.usizeMax);
    SmallRemainder(n, b.usizeMax);
    hide Ok;
    hide Max;
    assert Step(b, i, BeginReserve(n)) == Some(b1) && Step(b1, i, Load) == Some(b2);
    assert Step(b2, i, Exchange(false)) == Some(b3);
    assert Step(b3, i, Mark) == Some(b4) && Step(b4, i, Record) == Some(b5);
    hide Step;
    RunFive(b, Uncontended(i, n), b1, b2, b3, b4, b5);
    assert b5.cells == b.cells[i := Held(n)];
  }

  lemma {:induction false} RunFive(
      b: Budget, turns: seq<Turn>, b1: Budget, b2: Budget, b3: Budget, b4: Budget, b5: Budget)
    requires |turns| == 5
    requires Step(b, turns[0].i, turns[0].op) == Some(b1) && Step(b1, turns[1].i, turns[1].op) == Some(b2)
    requires Step(b2, turns[2].i, turns[2].op) == Some(b3) && Step(b3, turns[3].i, turns[3].op) == Some(b4)
    requires Step(b4, turns[4].i, turns[4].op) == Some(b5)
    ensures Run(b, turns) == Some(b5)
  {
    hide Step;
    assert Run(b4, turns[1..][1..][1..][1..]) == Some(b5) by {
      assert turns[1..][1..][1..][1..][1..] == [];
    }
    assert Run(b3, turns[1..][1..][1..]) == Some(b5);
    assert Run(b2, turns[1..][1..]) == Some(b5);
  }

  /**
   Each operation takes effect in one step, as the other models of the budget assume: an exchange grants `n` bytes that
   fit, a release returns bytes that were taken, and no other step changes the counter or what anybody has taken.
   */
  lemma {:induction false} EffectsAreAtomic(b: Budget, i: nat, op: Op)
    requires Reachable(b) && Step(b, i, op).Some?
    ensures var b' := Step(b, i, op).value;
            && (forall j :: 0 <= j < |b.cells| && j != i ==> b'.cells[j] == b.cells[j])
            && (if b'.cells[i].Granted? && !b.cells[i].Granted? then
                  b'.used == b.used + b'.cells[i].n <= b.limit
                    && Claim(b'.cells[i]) == Claim(b.cells[i]) + b'.cells[i].n
                else if op.Release? then
                  b'.used == b.used - b.cells[i].released
                    && Claim(b'.cells[i]) == Claim(b.cells[i]) - b.cells[i].released
                else b'.used == b.used && Claim(b'.cells[i]) == Claim(b.cells[i]))
  {
    ReachableOk(b);
    StepIsLocal(b, i, op);
    NothingWraps(b, i);
    assert MomentOk(b.history, b.cells[i]);
    hide Claims;
    hide HistoryOk;
    hide LevelsOk;
    hide RefusalsOk;
  }
}
