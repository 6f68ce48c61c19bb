/**
 The heartbeat of a session that is not waiting on the bulk queue: it looks at the clock only at its ticks, which
 come at fixed intervals. Times are in seconds.
 */
module Heartbeat {
  import opened Options

  /** What the select loop sees, in the order it sees it: its own ticks and frames from the server. */
  datatype Beat = Tick(at: real) | Frame(at: real)

  /**
   The k-th tick comes exactly one interval after the one before; a frame that arrives with a tick may be seen
   before or after it.
   */
  predicate Timed(beats: seq<Beat>, now: real, lastTick: real, interval: real) {
    beats == [] ||
    match beats[0]
    case Tick(at) => at == lastTick + interval && Timed(beats[1..], at, at, interval)
    case Frame(at) => now <= at <= lastTick + interval && Timed(beats[1..], at, lastTick, interval)
  }

  /** When the connection ends by heartbeat, and the last inbound frame then (or the start, if there was none). */
  datatype Expiry = Expiry(at: real, lastInbound: real)

  function Watch(beats: seq<Beat>, lastInbound: real, timeout: real): Option<Expiry> {
    if beats == [] then None
    else
      match beats[0]
      case Tick(at) =>
        if at - lastInbound > timeout then Some(Expiry(at, lastInbound)) else Watch(beats[1..], lastInbound, timeout)
      case Frame(at) => Watch(beats[1..], at, timeout)
  }

  /** The branches of the select loop that read or set `last_inbound`; also counts the pings it sends. */
  method Run(beats: seq<Beat>, start: real, timeout: real) returns (expiry: Option<Expiry>, pings: nat)
    ensures expiry == Watch(beats, start, timeout)
    ensures pings == |TicksOf(beats, start, timeout)|
  {
    var lastInbound := start;
    var i := 0;
    pings := 0;
    while i < |beats|
      invariant i <= |beats|
      invariant Watch(beats, start, timeout) == Watch(beats[i..], lastInbound, timeout)
      invariant |TicksOf(beats, start, timeout)| == pings + |TicksOf(beats[i..], lastInbound, timeout)|
    {
      assert beats[i..][1..] == beats[i + 1..];
      match beats[i] {
        case Tick(at) =>
          if at - lastInbound > timeout {
            return Some(Expiry(at, lastInbound)), pings;
          }
          pings := pings + 1;
        case Frame(at) =>
          lastInbound := at;
      }
      i := i + 1;
    }
    expiry := None;
  }

  /** The ticks at which a ping is sent: all before the expiry. */
  function TicksOf(beats: seq<Beat>, lastInbound: real, timeout: real): seq<real> {
    if beats == [] then []
    else
      match beats[0]
      case Tick(at) => if at - lastInbound > timeout then [] else [at] + TicksOf(beats[1..], lastInbound, timeout)
      case Frame(at) => TicksOf(beats[1..], at, timeout)
  }

  lemma {:induction false} WindowFrom(
      beats: seq<Beat>, lastInbound: real, now: real, lastTick: real, interval: real, timeout: real)
    requires Timed(beats, now, lastTick, interval) && Watch(beats, lastInbound, timeout).Some?
    requires lastInbound <= now <= lastTick + interval && lastTick <= now && lastTick - lastInbound <= timeout
    requires timeout >= 0.0 && interval > 0.0
    ensures var e := Watch(beats, lastInbound, timeout).value;
            e.lastInbound + timeout < e.at <= e.lastInbound + timeout + interval
  {
    match beats[0] {
      case Tick(at) =>
        if at - lastInbound <= timeout {
          WindowFrom(beats[1..], lastInbound, at, at, interval, timeout);
        }
      case Frame(at) =>
        WindowFrom(beats[1..], at, at, lastTick, interval, timeout);
    }
  }

  /** A silent connection ends later than the timeout after the last frame, but at most one interval later than that. */
  lemma {:induction false} HeartbeatWindow(beats: seq<Beat>, start: real, interval: real, timeout: real)
    requires Timed(beats, start, start, interval) && timeout >= 0.0 && interval > 0.0
    requires Watch(beats, start, timeout).Some?
    ensures var e := Watch(beats, start, timeout).value;
            e.lastInbound + timeout < e.at <= e.lastInbound + timeout + interval
  {
    WindowFrom(beats, start, start, start, interval, timeout);
  }

  lemma {:induction false} OnTick(
      beats: seq<Beat>, lastInbound: real, now: real, lastTick: real, interval: real, timeout: real, n: nat)
    returns (k: nat)
    requires Timed(beats, now, lastTick, interval) && Watch(beats, lastInbound, timeout).Some?
    ensures k > n && Watch(beats, lastInbound, timeout).value.at == lastTick + (k - n) as real * interval
  {
    match beats[0] {
      case Tick(at) =>
        if at - lastInbound > timeout {
          k := n + 1;
        } else {
          k := OnTick(beats[1..], lastInbound, at, at, interval, timeout, n + 1);
          NextMultiple(lastTick, k - n, interval);
        }
      case Frame(at) =>
        k := OnTick(beats[1..], at, at, lastTick, interval, timeout, n);
    }
  }

  lemma {:induction false} NextMultiple(lastTick: real, k: nat, interval: real)
    requires k >= 1
    ensures lastTick + interval + (k - 1) as real * interval == lastTick + k as real * interval
  {
    assert k as real == (k - 1) as real + 1.0;
  }

  /** Exactly when: it ends at the first tick that comes more than the timeout after the last frame. */
  lemma {:induction false} ExpiresAtFirstTick(
      beats: seq<Beat>, start: real, interval: real, timeout: real) returns (k: nat)
    requires Timed(beats, start, start, interval) && timeout >= 0.0 && interval > 0.0
    requires Watch(beats, start, timeout).Some?
    ensures var e := Watch(beats, start, timeout).value;
            && k >= 1 && e.at == start + k as real * interval
            && start + (k - 1) as real * interval <= e.lastInbound + timeout < start + k as real * interval
  {
    HeartbeatWindow(beats, start, interval, timeout);
    k := OnTick(beats, start, start, start, interval, timeout, 0);
    NextMultiple(start, k, interval);
  }

  /** The next frame to be seen, or the end of the observation. */
  function NextInbound(beats: seq<Beat>, end: real): real {
    if beats == [] then end else match beats[0] case Frame(at) => at case Tick(_) => NextInbound(beats[1..], end)
  }

  /** No gap between inbound frames, nor between the last one and the end, is longer than `timeout`. */
  predicate GapsWithin(beats: seq<Beat>, lastInbound: real, end: real, timeout: real) {
    && NextInbound(beats, end) - lastInbound <= timeout
    && (beats != [] ==> GapsWithin(beats[1..], if beats[0].Frame? then beats[0].at else lastInbound, end, timeout))
  }

  predicate Before(beats: seq<Beat>, end: real) {
    forall i :: 0 <= i < |beats| ==> beats[i].at <= end
  }

  lemma {:induction false} NextIsLater(beats: seq<Beat>, now: real, lastTick: real, interval: real, end: real)
    requires Timed(beats, now, lastTick, interval) && Before(beats, end) && now <= end && interval > 0.0
    requires now <= lastTick + interval
    ensures now <= NextInbound(beats, end)
  {
    if beats != [] && beats[0].Tick? {
      assert beats[0].at <= end;
      NextIsLater(beats[1..], beats[0].at, beats[0].at, interval, end);
    }
  }

  lemma {:induction false} NeverExpiresFrom(
      beats: seq<Beat>, lastInbound: real, now: real, lastTick: real, interval: real, timeout: real, end: real)
    requires Timed(beats, now, lastTick, interval) && Before(beats, end) && interval > 0.0 && now <= end
    requires now <= lastTick + interval
    requires GapsWithin(beats, lastInbound, end, timeout)
    ensures Watch(beats, lastInbound, timeout) == None
  {
    if beats != [] {
      assert beats[0].at <= end;
      match beats[0] {
        case Tick(at) =>
          NextIsLater(beats[1..], at, at, interval, end);
          NeverExpiresFrom(beats[1..], lastInbound, at, at, interval, timeout, end);
        case Frame(at) =>
          NeverExpiresFrom(beats[1..], at, at, lastTick, interval, timeout, end);
      }
    }
  }

  /** A server that is never silent for longer than the timeout never loses the connection to the heartbeat. */
  lemma {:induction false} AliveNeverExpires(beats: seq<Beat>, start: real, interval: real, timeout: real, end: real)
    requires Timed(beats, start, start, interval) && Before(beats, end) && interval > 0.0 && start <= end
    requires GapsWithin(beats, start, end, timeout)
    ensures Watch(beats, start, timeout) == None
  {
    NeverExpiresFrom(beats, start, start, start, interval, timeout, end);
  }

  /**
   With the deployed 20 and 45 seconds, "closed after 45 seconds without any frame" holds only up to the next tick: a
   frame one second after the start keeps the connection open until 60, and 58 silent seconds can pass unnoticed.
   */
  lemma {:induction false} NotAfterExactly45Seconds()
    ensures Timed([Frame(1.0), Tick(20.0), Tick(40.0), Tick(60.0)], 0.0, 0.0, 20.0)
    ensures Watch([Frame(1.0), Tick(20.0), Tick(40.0), Tick(60.0)], 0.0, 45.0) == Some(Expiry(60.0, 1.0))
    ensures Timed([Frame(1.0), Tick(20.0), Tick(40.0), Frame(59.0), Tick(60.0)], 0.0, 0.0, 20.0)
    ensures Watch([Frame(1.0), Tick(20.0), Tick(40.0), Frame(59.0), Tick(60.0)], 0.0, 45.0) == None
  {
    var last := [Tick(60.0)];
    var silent := [Frame(1.0), Tick(20.0), Tick(40.0)] + last;
    assert last[1..] == [];
    assert silent[1..][1..][1..] == last;
    assert silent == [Frame(1.0), Tick(20.0), Tick(40.0), Tick(60.0)];
    assert Watch(silent[1..][1..], 1.0, 45.0) == Some(Expiry(60.0, 1.0)) && Timed(silent[1..][1..], 20.0, 20.0, 20.0);
    assert Watch(silent[1..], 1.0, 45.0) == Some(Expiry(60.0, 1.0)) && Timed(silent[1..], 1.0, 0.0, 20.0);
    var seen := [Frame(1.0), Tick(20.0), Tick(40.0), Frame(59.0)] + last;
    assert seen[1..][1..][1..][1..] == last;
    assert seen == [Frame(1.0), Tick(20.0), Tick(40.0), Frame(59.0), Tick(60.0)];
    assert Watch(seen[1..][1..][1..], 1.0, 45.0) == None && Timed(seen[1..][1..][1..], 40.0, 40.0, 20.0);
    assert Watch(seen[1..][1..], 1.0, 45.0) == None && Timed(seen[1..][1..], 20.0, 20.0, 20.0);
    assert Watch(seen[1..], 1.0, 45.0) == None && Timed(seen[1..], 1.0, 0.0, 20.0);
  }

  /** The last frame seen before position `i`, or the start. */
  function LastInboundAt(beats: seq<Beat>, start: real, i: nat): real
    requires i <= |beats|
  {
    if i == 0 then start
    else if beats[i - 1].Frame? then beats[i - 1].at
    else LastInboundAt(beats, start, i - 1)
  }

  predicate TooSilent(beats: seq<Beat>, start: real, timeout: real, i: nat)
    requires i < |beats|
  {
    beats[i].Tick? && beats[i].at - LastInboundAt(beats, start, i) > timeout
  }

  lemma {:induction false} LastInboundShift(beats: seq<Beat>, start: real, i: nat)
    requires beats != [] && i < |beats|
    ensures LastInboundAt(beats, start, i + 1) ==
              LastInboundAt(beats[1..], if beats[0].Frame? then beats[0].at else start, i)
  {
    if i > 0 {
      LastInboundShift(beats, start, i - 1);
    }
  }

  /** The times of all ticks. */
  function TickTimes(beats: seq<Beat>): seq<real> {
    if beats == [] then []
    else (match beats[0] case Tick(at) => [at] case Frame(_) => []) + TickTimes(beats[1..])
  }

  /**
   The first tick that finds the last frame more than the timeout ago, or the number of beats if there is none; every
   tick before it pings.
   */
  lemma {:induction false} ExpiresExactlyWhen(beats: seq<Beat>, start: real, timeout: real) returns (i: nat)
    ensures i <= |beats| && forall j :: 0 <= j < i ==> !TooSilent(beats, start, timeout, j)
    ensures Watch(beats, start, timeout) ==
              if i == |beats| then None else Some(Expiry(beats[i].at, LastInboundAt(beats, start, i)))
    ensures i < |beats| ==> TooSilent(beats, start, timeout, i)
    ensures TicksOf(beats, start, timeout) == TickTimes(beats[..i])
  {
    i := 0;
    if beats != [] && !TooSilent(beats, start, timeout, 0) {
      var last := if beats[0].Frame? then beats[0].at else start;
      i := ExpiresExactlyWhen(beats[1..], last, timeout);
      forall j | 0 <= j < |beats| - 1
        ensures LastInboundAt(beats[1..], last, j) == LastInboundAt(beats, start, j + 1)
      {
        LastInboundShift(beats, start, j);
      }
      forall j | 0 < j < i + 1 ensures !TooSilent(beats, start, timeout, j) {
        assert !TooSilent(beats[1..], last, timeout, j - 1);
        assert LastInboundAt(beats[1..], last, j - 1) == LastInboundAt(beats, start, (j - 1) + 1);
      }
      assert beats[..i + 1][1..] == beats[1..][..i];
      i := i + 1;
    }
  }

  /** No frame is seen in the window that opens after `t` and ends one interval past the timeout. */
  predicate SilentAfter(beats: seq<Beat>, t: real, timeout: real, interval: real) {
    forall i :: 0 <= i < |beats| && beats[i].Frame? ==> beats[i].at <= t || beats[i].at > t + timeout + interval
  }

  lemma {:induction false} SilenceFrom(
    beats: seq<Beat>, lastInbound: real, now: real, lastTick: real, interval: real, timeout: real, t: real, k: nat)
    requires Timed(beats, now, lastTick, interval) && interval > 0.0 && timeout >= 0.0
    requires lastInbound <= t && lastInbound <= now <= lastTick + interval && lastTick - lastInbound <= timeout
    requires SilentAfter(beats, t, timeout, interval)
    requires k < |beats| && beats[k].at >= t + timeout + interval
    ensures Watch(beats, lastInbound, timeout).Some? && Watch(beats, lastInbound, timeout).value.lastInbound <= t
  {
    var rest := beats[1..];
    assert SilentAfter(rest, t, timeout, interval) by {
      assert forall i :: 0 <= i < |rest| ==> rest[i] == beats[i + 1];
    }
    match beats[0] {
      case Tick(at) =>
        if at - lastInbound <= timeout {
          assert k > 0;
          SilenceFrom(rest, lastInbound, at, at, interval, timeout, t, k - 1);
        }
      case Frame(at) =>
        assert at <= t && k > 0;
        SilenceFrom(rest, at, at, lastTick, interval, timeout, t, k - 1);
    }
  }

  /**
   Silence ends the connection: if no frame comes in the timeout and one interval after `t`, and the session is watched
   until that window is over, it ends, within the window after its last frame.
   */
  lemma {:induction false} SilenceEndsConnection(
      beats: seq<Beat>, start: real, interval: real, timeout: real, t: real, k: nat)
    requires Timed(beats, start, start, interval) && interval > 0.0 && timeout >= 0.0
    requires start <= t && SilentAfter(beats, t, timeout, interval)
    requires k < |beats| && beats[k].at >= t + timeout + interval
    ensures Watch(beats, start, timeout).Some?
    ensures var e := Watch(beats, start, timeout).value;
            e.lastInbound <= t && e.lastInbound + timeout < e.at <= e.lastInbound + timeout + interval
  {
    SilenceFrom(beats, start, start, start, interval, timeout, t, k);
    HeartbeatWindow(beats, start, interval, timeout);
  }
}
