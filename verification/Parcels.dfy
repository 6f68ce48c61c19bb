/**
 One scrape request on its way through a connection, together with the buffers it owns,
 its memory reservations, and the history of what was done with it.
 */
module Parcels {
  import opened Options
  import opened Bytes
  import opened Protocol
  import opened FormEncoding

  /**
   The wire version in use, the size of the process-wide response memory budget, and the exact
   encoded lengths of a response as JSON and as a form.
   */
  datatype Config = Config(protocol: nat, limit: nat, jsonLen: ResourceResponse -> nat,
      formLen: ResourceResponse -> nat)

  /** The configuration that is deployed: the lengths are those of the two encoders. */
  function Deployed(protocol: nat, limit: nat): Config {
    Config(protocol, limit, r => |EncodeResponse(r)|, r => |EncodeForm(r)|)
  }

  /** Why a request is being answered: by scraping, or with a 503 because a scrape is running. */
  datatype Kind = Scrape | Busy

  /** Which buffers the parcel owns. */
  datatype Stage =
    | Asked        // the request identifiers only
    | Answered     // a budgeted response
    | Posting      // the response and the form body of a POST in flight
    | Serializing  // the response and a reservation for its JSON
    | Encoded      // the JSON only

  datatype Why =
    | MemoryRefused      // the budget refused bytes without which nothing could be answered
    | MetadataTooLarge   // even the error response is over the message limit
    | LargeAfterTimeout
    | WriterFailed
    | ConnectionEnded

  datatype Fate = Pending | Written | Accepted | Dropped(why: Why)

  /**
   `held` and `extra` are the byte counts of the two reservations a parcel can own: one for the
   response (uid and body), one for an encoding of it (form body or JSON).
   `tries`, `failed`, `late` and `frames` record POST attempts, whether a POST reported failure,
   whether that failure was a timeout, and WebSocket frames started.
   */
  datatype Parcel = Parcel(
    id: nat, kind: Kind, stage: Stage, fate: Fate,
    orig: ResourceResponse, now: ResourceResponse,
    uidCap: nat, bodyCap: nat, encCap: nat,
    held: nat, extra: nat,
    tries: nat, failed: bool, late: bool, frames: nat)

  /** `FALLBACK_AFTER_TIMEOUT_LIMIT` */
  const FALLBACK_AFTER_TIMEOUT_LIMIT: nat := 256 * 1024

  /** A scrape whose POST timed out while carrying more than 256 KiB of body. */
  predicate TooLateToResend(p: Parcel) {
    p.kind == Scrape && p.late && |p.orig.body| > FALLBACK_AFTER_TIMEOUT_LIMIT
  }

  /** The parcel after its buffers and reservations are gone. */
  function Finish(p: Parcel, fate: Fate): Parcel {
    p.(fate := fate, uidCap := 0, bodyCap := 0, encCap := 0, held := 0, extra := 0)
  }

  function Drop(p: Parcel, why: Why): Parcel {
    Finish(p, Dropped(why))
  }

  /** A request together with the content sent for it. */
  datatype Key = Key(id: nat, content: ResourceResponse)

  function KeyOf(p: Parcel): Key {
    Key(p.id, p.now)
  }

  function DropOption(o: Option<Parcel>, why: Why): Option<Parcel> {
    match o
    case None => None
    case Some(p) => Some(Drop(p, why))
  }

  // -------------------------------------------------------------------- totals

  /** Quantities that are added up over the places a parcel can be in. */
  datatype Measure =
    | Items               // live response objects
    | Reserved            // bytes of reservations
    | Capacity            // bytes of buffers
    | Requests(id: nat)   // occurrences of one request
    | Attempts(id: nat)   // POST attempts made for one request
    | Frames(id: nat)     // WebSocket frames started for one request
    | PostedAs(k: Key)    // POST attempts made for one request with one content
    | FramedAs(k: Key)    // WebSocket frames started for one request with one content

  function Weight(m: Measure, p: Parcel): nat {
    match m
    case Items => 1
    case Reserved => p.held + p.extra
    case Capacity => p.uidCap + p.bodyCap + p.encCap
    case Requests(id) => if p.id == id then 1 else 0
    case Attempts(id) => if p.id == id then p.tries else 0
    case Frames(id) => if p.id == id then p.frames else 0
    case PostedAs(k) => if p.id == k.id && p.orig == k.content then p.tries else 0
    case FramedAs(k) => if KeyOf(p) == k then p.frames else 0
  }

  function Total(m: Measure, q: seq<Parcel>): nat {
    if q == [] then 0 else Weight(m, q[0]) + Total(m, q[1..])
  }

  lemma {:induction false} TotalConcat(m: Measure, a: seq<Parcel>, b: seq<Parcel>)
    ensures Total(m, a + b) == Total(m, a) + Total(m, b)
  {
    if a == [] {
      assert a + b == b;
    } else {
      assert (a + b)[1..] == a[1..] + b;
      TotalConcat(m, a[1..], b);
    }
  }

  lemma {:induction false} TotalOne(m: Measure, p: Parcel)
    ensures Total(m, [p]) == Weight(m, p)
  {
    assert [p][1..] == [];
  }

  lemma {:induction false} TotalPush(m: Measure, q: seq<Parcel>, p: Parcel)
    ensures Total(m, q + [p]) == Total(m, q) + Weight(m, p)
  {
    TotalConcat(m, q, [p]);
    TotalOne(m, p);
  }

  function OptionSeq<T>(o: Option<T>): seq<T> {
    match o
    case None => []
    case Some(x) => [x]
  }

  function Maybe(m: Measure, o: Option<Parcel>): nat {
    match o
    case None => 0
    case Some(p) => Weight(m, p)
  }

  lemma {:induction false} TotalPushMaybe(m: Measure, q: seq<Parcel>, o: Option<Parcel>)
    ensures Total(m, q + OptionSeq(o)) == Total(m, q) + Maybe(m, o)
  {
    match o {
      case None => assert q + OptionSeq(o) == q;
      case Some(p) => TotalPush(m, q, p);
    }
  }

  function RemoveAt<T>(q: seq<T>, i: nat): seq<T>
    requires i < |q|
  {
    q[..i] + q[i + 1..]
  }

  lemma {:induction false} TotalRemoveAt(m: Measure, q: seq<Parcel>, i: nat)
    requires i < |q|
    ensures Total(m, RemoveAt(q, i)) + Weight(m, q[i]) == Total(m, q)
  {
    assert q == q[..i] + ([q[i]] + q[i + 1..]);
    TotalConcat(m, q[..i], [q[i]] + q[i + 1..]);
    TotalConcat(m, [q[i]], q[i + 1..]);
    TotalConcat(m, q[..i], q[i + 1..]);
    TotalOne(m, q[i]);
  }

  lemma {:induction false} TotalUpdate(m: Measure, q: seq<Parcel>, i: nat, p: Parcel)
    requires i < |q|
    ensures Total(m, q[i := p]) + Weight(m, q[i]) == Total(m, q) + Weight(m, p)
  {
    TotalRemoveAt(m, q, i);
    TotalRemoveAt(m, q[i := p], i);
    assert RemoveAt(q[i := p], i) == RemoveAt(q, i);
  }

  /** Everything in a queue is dropped for one reason, in order. */
  function DropAll(q: seq<Parcel>, why: Why): (r: seq<Parcel>)
    ensures |r| == |q|
    ensures forall i :: 0 <= i < |q| ==> r[i] == Drop(q[i], why)
  {
    if q == [] then [] else [Drop(q[0], why)] + DropAll(q[1..], why)
  }

  predicate CountsRequests(m: Measure) {
    m.Requests? || m.Attempts? || m.Frames? || m.PostedAs? || m.FramedAs?
  }

  lemma {:induction false} FinishKeepsWeight(m: Measure, p: Parcel, fate: Fate)
    requires CountsRequests(m)
    ensures Weight(m, Finish(p, fate)) == Weight(m, p)
    ensures Total(m, [Finish(p, fate)]) == Weight(m, p)
  {
    TotalOne(m, Finish(p, fate));
  }

  lemma {:induction false} TotalDropAll(m: Measure, q: seq<Parcel>, why: Why)
    ensures CountsRequests(m) ==> Total(m, DropAll(q, why)) == Total(m, q)
    ensures m == Reserved || m == Capacity ==> Total(m, DropAll(q, why)) == 0
  {
    if q != [] {
      TotalDropAll(m, q[1..], why);
      assert DropAll(q, why)[1..] == DropAll(q[1..], why);
    }
  }

  lemma {:induction false} TotalItems(q: seq<Parcel>)
    ensures Total(Items, q) == |q|
  {
    if q != [] {
      TotalItems(q[1..]);
    }
  }

  lemma {:induction false} TotalOfMember(m: Measure, q: seq<Parcel>, i: nat)
    requires i < |q|
    ensures Weight(m, q[i]) <= Total(m, q)
  {
    TotalRemoveAt(m, q, i);
  }

  // --------------------------------------------------------------- histories

  function KeyWeight(m: Measure, k: Key): nat {
    match m
    case Attempts(id) => if k.id == id then 1 else 0
    case PostedAs(k') => if k == k' then 1 else 0
    case Frames(id) => if k.id == id then 1 else 0
    case FramedAs(k') => if k == k' then 1 else 0
    case _ => 0
  }

  /** Measures that count POSTs, or frames. */
  predicate OfPosts(m: Measure) {
    m.Attempts? || m.PostedAs?
  }

  predicate OfFrames(m: Measure) {
    m.Frames? || m.FramedAs?
  }

  /** How many entries of a history the measure counts. */
  function CountKeys(m: Measure, keys: seq<Key>): nat {
    if keys == [] then 0 else CountKeys(m, keys[..|keys| - 1]) + KeyWeight(m, keys[|keys| - 1])
  }

  lemma {:induction false} CountPush(m: Measure, keys: seq<Key>, o: Option<Key>)
    ensures CountKeys(m, keys + OptionSeq(o)) == CountKeys(m, keys) + MaybeKey(m, o)
  {
    match o {
      case None => assert keys + OptionSeq(o) == keys;
      case Some(k) => assert (keys + OptionSeq(o))[..|keys|] == keys;
    }
  }

  function MaybeKey(m: Measure, o: Option<Key>): nat {
    match o
    case None => 0
    case Some(k) => KeyWeight(m, k)
  }

  // ----------------------------------------------------- what each parcel keeps

  predicate Covered(cfg: Config, p: Parcel) {
    match p.stage
    case Asked => p.held == p.uidCap + p.bodyCap && p.encCap == 0 && p.extra == 0
    case Answered => p.held == p.uidCap + p.bodyCap && p.encCap == 0 && p.extra == 0
    case Posting => p.held == p.uidCap + p.bodyCap && p.extra == p.encCap
    case Serializing => p.held == p.uidCap + p.bodyCap && p.encCap == 0 && p.extra == cfg.jsonLen(p.now)
    case Encoded => p.uidCap == p.bodyCap == 0 && p.held == 0 && p.extra == p.encCap
  }

  /** Capacities are real: they hold the bytes they are said to hold. */
  predicate Fits(cfg: Config, p: Parcel) {
    match p.stage
    case Asked => true
    case Answered => |p.now.uid| <= p.uidCap && |p.now.body| <= p.bodyCap
    case Posting => |p.now.uid| <= p.uidCap && |p.now.body| <= p.bodyCap
    case Serializing => |p.now.uid| <= p.uidCap && |p.now.body| <= p.bodyCap
    case Encoded => cfg.jsonLen(p.now) <= p.encCap
  }

  /** The content is the answer as produced, or the error that replaced it. */
  predicate Faithful(p: Parcel) {
    p.now == p.orig || p.now == ErrorFor(p.orig.uid)
  }

  /** The wire limits: a valid uid, a body of at most 64 MiB, and a 503 exactly for busy answers without body. */
  predicate WithinLimits(p: Parcel) {
    |p.orig.uid| <= MAX_UID_SIZE && |p.orig.body| <= MAX_BODY_SIZE
    && (p.kind == Busy ==> p.orig == ResourceResponse(p.orig.uid, 503, []))
  }

  /** Wire 3 sends a scrape's response over the WebSocket only after its POST failed or could not be prepared. */
  predicate PostFirst(cfg: Config, p: Parcel) {
    cfg.protocol == 3 && p.kind == Scrape ==> p.failed
  }

  /** At most one POST attempt, and once it is over a WebSocket frame only if it reported failure. */
  predicate HistoryOk(cfg: Config, p: Parcel) {
    p.tries <= 1 && p.frames <= 1
    && (p.frames == 1 ==> PostFirst(cfg, p))
    && (p.late ==> p.failed)
    && (p.tries == 1 && p.frames == 1 ==> p.failed)
    && (TooLateToResend(p) ==> p.frames == 0)
  }

  predicate LiveOk(cfg: Config, p: Parcel) {
    p.fate == Pending && Covered(cfg, p) && Fits(cfg, p) && Faithful(p) && WithinLimits(p) && HistoryOk(cfg, p)
  }

  /** What each fate says about the history of the parcel that met it. */
  predicate FateOk(p: Parcel) {
    match p.fate
    case Pending => false
    case Written => p.frames == 1
    case Accepted => p.tries == 1 && p.frames == 0 && !p.failed && p.now == p.orig
    case Dropped(MemoryRefused) => p.frames == 0 && (p.tries == 1 ==> p.failed)
    case Dropped(MetadataTooLarge) => p.frames == 0 && (p.tries == 1 ==> p.failed) && p.now == ErrorFor(p.orig.uid)
    case Dropped(LargeAfterTimeout) => p.frames == 0 && TooLateToResend(p)
    case Dropped(_) => true
  }

  predicate FinishedOk(cfg: Config, p: Parcel) {
    && FateOk(p) && Faithful(p) && WithinLimits(p) && HistoryOk(cfg, p)
    && p.held == p.extra == p.uidCap == p.bodyCap == p.encCap == 0
  }

  /** A budgeted response nobody has tried to deliver yet. */
  predicate FreshAnswer(cfg: Config, p: Parcel, kind: Kind) {
    && LiveOk(cfg, p) && p.stage == Answered && p.kind == kind
    && p.tries == 0 && p.frames == 0 && !p.failed && !p.late && p.now == p.orig
  }

  /** A response whose only POST attempt is in flight. */
  predicate InFlight(cfg: Config, p: Parcel, kind: Kind) {
    && LiveOk(cfg, p) && p.stage == Posting && p.kind == kind
    && p.tries == 1 && p.frames == 0 && !p.failed && !p.late && p.now == p.orig
    && cfg.formLen(p.now) <= p.encCap
  }

  function AttemptPost(p: Parcel, cap: nat): Parcel {
    p.(stage := Posting, encCap := cap, extra := cap, tries := p.tries + 1)
  }

  function FailPost(p: Parcel, timedOut: bool): Parcel {
    p.(stage := Answered, encCap := 0, extra := 0, failed := true, late := timedOut)
  }
}
