/** The reconnect loop of a worker: exponential backoff with jitter, over whole runs. Durations are in seconds. */
module Backoff {
  import opened Timing

  const RECONNECT_DELAY: nat := 1
  const MAX_RECONNECT_DELAY: nat := 30
  const STABLE_CONNECTION: real := 60.0

  function PowerOfTwo(n: nat): (r: nat)
    ensures r >= 1
  {
    if n == 0 then 1 else 2 * PowerOfTwo(n - 1)
  }

  function Exponent(quickFailures: nat): nat {
    var n := if quickFailures == 0 then 0 else quickFailures - 1;
    if n < 5 then n else 5
  }

  function BaseDelay(quickFailures: nat): nat {
    var base := RECONNECT_DELAY * PowerOfTwo(Exponent(quickFailures));
    if base < MAX_RECONNECT_DELAY then base else MAX_RECONNECT_DELAY
  }

  function Clamp(x: real): real {
    Max(0.0, Min(x, 1.0))
  }

  function ReconnectDelay(quickFailures: nat, fraction: real): real {
    BaseDelay(quickFailures) as real * (0.5 + Clamp(fraction) / 2.0)
  }

  /** The six levels of the backoff. */
  lemma {:induction false} BaseLevels(q: nat)
    ensures BaseDelay(q) ==
            if q <= 1 then 1
            else if q == 2 then 2
            else if q == 3 then 4
            else if q == 4 then 8
            else if q == 5 then 16
            else 30
  {
    assert PowerOfTwo(0) == 1 && PowerOfTwo(1) == 2 && PowerOfTwo(2) == 4;
    assert PowerOfTwo(3) == 8 && PowerOfTwo(4) == 16 && PowerOfTwo(5) == 32;
  }

  /**
   Every delay is between half its base and its base, from half a second to half a minute; the base never falls as
   failures mount.
   */
  lemma {:induction false} DelayBounds(q: nat, fraction: real)
    ensures BaseDelay(q) as real / 2.0 <= ReconnectDelay(q, fraction) <= BaseDelay(q) as real
    ensures 0.0 <= fraction < 1.0 ==> ReconnectDelay(q, fraction) < BaseDelay(q) as real
    ensures 0.5 <= ReconnectDelay(q, fraction) <= 30.0
    ensures BaseDelay(q) <= BaseDelay(q + 1)
  {
    BaseLevels(q);
    BaseLevels(q + 1);
  }

  /**
   The jitter covers the upper half of the base evenly: equal steps of the fraction are equal steps of the delay,
   from half the base up to the base.
   */
  lemma {:induction false} JitterIsEven(q: nat, a: real, b: real)
    requires 0.0 <= a <= b <= 1.0
    ensures ReconnectDelay(q, b) - ReconnectDelay(q, a) == (b - a) * (ReconnectDelay(q, 1.0) - ReconnectDelay(q, 0.0))
    ensures ReconnectDelay(q, 0.0) == BaseDelay(q) as real / 2.0 && ReconnectDelay(q, 1.0) == BaseDelay(q) as real
  {
    var base := BaseDelay(q) as real;
    hide BaseDelay;
    assert base * (0.5 + b / 2.0) - base * (0.5 + a / 2.0) == (b - a) * (base / 2.0);
  }

  // ----------------------------------------------------------------- run_worker

  /** When the worker is told to stop. */
  datatype Cancelled = No | WhileConnected | WhileSleeping

  /** One turn of the loop: how long the connection lived, the random fraction, and whether a shutdown came. */
  datatype Round = Round(lived: real, fraction: real, cancelled: Cancelled)

  function CountFailure(quickFailures: nat, lived: real): nat {
    if lived >= STABLE_CONNECTION then 0 else quickFailures + 1
  }

  /** The sleeps that are slept to their end, starting after `q` quick failures. */
  function Sleeps(q: nat, rounds: seq<Round>): seq<real>
    decreases |rounds|
  {
    if rounds == [] || !rounds[0].cancelled.No? then []
    else
      var q' := CountFailure(q, rounds[0].lived);
      [ReconnectDelay(q', rounds[0].fraction)] + Sleeps(q', rounds[1..])
  }

  /** How many connections in a row, up to round `k`, lived less than a minute; `q` came before the first round. */
  function QuickInARow(q: nat, rounds: seq<Round>, k: nat): nat
    requires k < |rounds|
  {
    if rounds[k].lived >= 60.0 then 0
    else if k == 0 then q + 1
    else QuickInARow(q, rounds, k - 1) + 1
  }

  lemma {:induction false} RowFromSecond(q: nat, rounds: seq<Round>, k: nat)
    requires 0 < k < |rounds|
    ensures QuickInARow(q, rounds, k) == QuickInARow(CountFailure(q, rounds[0].lived), rounds[1..], k - 1)
  {
    if k > 1 {
      RowFromSecond(q, rounds, k - 1);
    }
  }

  /** Each sleep follows the connections that failed quickly in a row before it, and nothing further back. */
  lemma {:induction false} SleepAt(q: nat, rounds: seq<Round>, k: nat)
    requires k < |Sleeps(q, rounds)|
    ensures k < |rounds| && Sleeps(q, rounds)[k] == ReconnectDelay(QuickInARow(q, rounds, k), rounds[k].fraction)
    decreases k
  {
    hide ReconnectDelay;
    if k > 0 {
      SleepAt(CountFailure(q, rounds[0].lived), rounds[1..], k - 1);
      RowFromSecond(q, rounds, k);
    }
  }

  /** After a connection that lived a minute the worker is back within a second, and not before half of it. */
  lemma {:induction false} StableConnectionResets(q: nat, rounds: seq<Round>, k: nat)
    requires k < |Sleeps(q, rounds)|
    ensures k < |rounds|
    ensures var base := BaseDelay(QuickInARow(q, rounds, k)) as real;
            base / 2.0 <= Sleeps(q, rounds)[k] <= base && (rounds[k].lived >= 60.0 ==> base == 1.0)
  {
    SleepAt(q, rounds, k);
    DelayBounds(QuickInARow(q, rounds, k), rounds[k].fraction);
    BaseLevels(QuickInARow(q, rounds, k));
    hide Sleeps;
  }

  lemma {:induction false} StableSleeps(rounds: seq<Round>)
    ensures |Sleeps(0, rounds)| <= |rounds|
    ensures forall k :: 0 <= k < |Sleeps(0, rounds)| && rounds[k].lived >= 60.0 ==> 0.5 <= Sleeps(0, rounds)[k] <= 1.0
  {
    var n := |Sleeps(0, rounds)|;
    hide Sleeps;
    if n > 0 {
      StableConnectionResets(0, rounds, n - 1);
    }
    forall k | 0 <= k < n && rounds[k].lived >= 60.0 ensures 0.5 <= Sleeps(0, rounds)[k] <= 1.0 {
      StableConnectionResets(0, rounds, k);
    }
  }

  /** How many connections are attempted: up to and including the one during or after which the shutdown comes. */
  function Attempts(rounds: seq<Round>): (n: nat)
    ensures n <= |rounds|
  {
    if rounds == [] then 0 else if !rounds[0].cancelled.No? then 1 else 1 + Attempts(rounds[1..])
  }

  /** What one turn adds. */
  lemma {:induction false} TurnAt(q: nat, rounds: seq<Round>, i: nat)
    requires i < |rounds|
    ensures var q' := CountFailure(q, rounds[i].lived);
            if rounds[i].cancelled.No? then
              && Sleeps(q, rounds[i..]) == [ReconnectDelay(q', rounds[i].fraction)] + Sleeps(q', rounds[i + 1..])
              && Attempts(rounds[i..]) == 1 + Attempts(rounds[i + 1..])
            else Sleeps(q, rounds[i..]) == [] && Attempts(rounds[i..]) == 1
  {
    hide ReconnectDelay;
    assert rounds[i..][1..] == rounds[i + 1..];
  }

  lemma {:induction false} NoTurnsLeft(q: nat, rounds: seq<Round>)
    ensures rounds[0..] == rounds && Sleeps(q, rounds[|rounds|..]) == [] && Attempts(rounds[|rounds|..]) == 0
  {
  }

  /** The loop itself; `rounds` is what connections, clock and shutdown token do. */
  method RunWorker(cancelled: bool, rounds: seq<Round>) returns (attempts: nat, sleeps: seq<real>)
    ensures cancelled ==> attempts == 0 && sleeps == []
    ensures !cancelled ==> attempts == Attempts(rounds) && sleeps == Sleeps(0, rounds)
    ensures |sleeps| <= attempts <= |sleeps| + 1 && attempts <= |rounds|
    ensures forall k :: 0 <= k < |sleeps| && rounds[k].lived >= 60.0 ==> 0.5 <= sleeps[k] <= 1.0
    ensures Lived(rounds) ==> Lives(rounds[..|sleeps|]) + Sum(sleeps) >= (76.0 * |sleeps| as real - 287.0) / 6.0
  {
    hide ReconnectDelay;
    hide Sleeps;
    hide Attempts;
    hide Sum;
    hide Lives;
    attempts, sleeps := 0, [];
    NothingSlept(rounds);
    NoTurnsLeft(0, rounds);
    var quickFailures := 0;
    var stop := cancelled;
    while !stop && attempts < |rounds|
      invariant attempts <= |rounds| && |sleeps| <= attempts <= |sleeps| + (if stop then 1 else 0)
      invariant cancelled ==> stop && attempts == 0 && sleeps == []
      invariant !cancelled ==>
                Sleeps(0, rounds) == if stop then sleeps else sleeps + Sleeps(quickFailures, rounds[attempts..])
      invariant !cancelled ==> Attempts(rounds) == if stop then attempts else attempts + Attempts(rounds[attempts..])
      decreases |rounds| - attempts, !stop
    {
      var round := rounds[attempts];
      TurnAt(quickFailures, rounds, attempts);
      attempts := attempts + 1;
      if round.lived >= STABLE_CONNECTION {
        quickFailures := 0;
      } else {
        quickFailures := quickFailures + 1;
      }
      var delay := ReconnectDelay(quickFailures, round.fraction);
      if round.cancelled.No? {
        sleeps := sleeps + [delay];
      } else {
        stop := true;
      }
    }
    NoTurnsLeft(quickFailures, rounds);
    if Lived(rounds) && !cancelled {
      SleptRoundsAreSpaced(rounds);
    }
    if !cancelled {
      StableSleeps(rounds);
    }
  }

  // ------------------------------------------------- consecutive quick failures

  function Sum(xs: seq<real>): real {
    if xs == [] then 0.0 else xs[0] + Sum(xs[1..])
  }

  /** The sum of the first `n` bases. */
  function Total(n: nat): nat {
    if n <= 5 then PowerOfTwo(n) - 1 else 31 + 30 * (n - 5)
  }

  predicate AllQuick(rounds: seq<Round>) {
    forall i :: 0 <= i < |rounds| ==> rounds[i].lived < STABLE_CONNECTION && rounds[i].cancelled.No?
  }

  lemma {:induction false} TotalStep(q: nat)
    ensures Total(q + 1) == Total(q) + BaseDelay(q + 1)
  {
    BaseLevels(q + 1);
    assert PowerOfTwo(0) == 1 && PowerOfTwo(1) == 2 && PowerOfTwo(2) == 4;
    assert PowerOfTwo(3) == 8 && PowerOfTwo(4) == 16 && PowerOfTwo(5) == 32;
  }

  lemma {:induction false} QuickSleeps(q: nat, rounds: seq<Round>)
    requires AllQuick(rounds)
    ensures |Sleeps(q, rounds)| == |rounds|
    ensures (Total(q + |rounds|) - Total(q)) as real / 2.0 <=
              Sum(Sleeps(q, rounds)) <= (Total(q + |rounds|) - Total(q)) as real
    decreases |rounds|
  {
    hide BaseDelay;
    hide ReconnectDelay;
    hide Total;
    if rounds != [] {
      TotalStep(q);
      DelayBounds(q + 1, rounds[0].fraction);
      QuickSleeps(q + 1, rounds[1..]);
      var first := ReconnectDelay(q + 1, rounds[0].fraction);
      assert Sleeps(q, rounds) == [first] + Sleeps(q + 1, rounds[1..]);
      assert ([first] + Sleeps(q + 1, rounds[1..]))[1..] == Sleeps(q + 1, rounds[1..]);
    }
  }

  /**
   After n consecutive quick failures of a fresh worker the sleeps add up to between half of Total(n) and Total(n).
   */
  lemma {:induction false} QuickFailuresSleep(rounds: seq<Round>)
    requires AllQuick(rounds)
    ensures Total(|rounds|) as real / 2.0 <= Sum(Sleeps(0, rounds)) <= Total(|rounds|) as real
  {
    QuickSleeps(0, rounds);
  }

  // ------------------------------------------------------ attempts in any window

  /** Time from the first connection attempt to the one after the last of these rounds. */
  function Elapsed(q: nat, rounds: seq<Round>): real
    decreases |rounds|
  {
    if rounds == [] then 0.0
    else
      var q' := CountFailure(q, rounds[0].lived);
      rounds[0].lived + ReconnectDelay(q', rounds[0].fraction) + Elapsed(q', rounds[1..])
  }

  lemma {:induction false} NothingSlept(rounds: seq<Round>)
    ensures Lives(rounds[..0]) + Sum([]) == 0.0
  {
  }

  function Lives(rounds: seq<Round>): real {
    if rounds == [] then 0.0 else rounds[0].lived + Lives(rounds[1..])
  }

  /** Without a shutdown the time is what the connections lived plus what the worker slept. */
  lemma {:induction false} ElapsedIsLivesAndSleeps(q: nat, rounds: seq<Round>)
    requires forall i :: 0 <= i < |rounds| ==> rounds[i].cancelled.No?
    ensures Elapsed(q, rounds) == Lives(rounds) + Sum(Sleeps(q, rounds))
    ensures |Sleeps(q, rounds)| == |rounds| == Attempts(rounds)
    decreases |rounds|
  {
    if rounds != [] {
      var q' := CountFailure(q, rounds[0].lived);
      ElapsedIsLivesAndSleeps(q', rounds[1..]);
      hide ReconnectDelay;
      var first := ReconnectDelay(q', rounds[0].fraction);
      assert Sleeps(q, rounds) == [first] + Sleeps(q', rounds[1..]);
      assert ([first] + Sleeps(q', rounds[1..]))[1..] == Sleeps(q', rounds[1..]);
    }
  }

  predicate Lived(rounds: seq<Round>) {
    forall i :: 0 <= i < |rounds| ==> rounds[i].lived >= 0.0
  }

  /** How far a run that starts after `q` quick failures can fall behind 38/3 seconds per attempt. */
  function Deficit(q: nat): real {
    if q == 0 then 287.0 / 6.0
    else if q == 1 then 107.0 / 3.0
    else if q == 2 then 24.0
    else if q == 3 then 40.0 / 3.0
    else if q == 4 then 14.0 / 3.0
    else 0.0
  }

  lemma {:induction false} RoundCost(q: nat, round: Round)
    requires round.lived >= 0.0
    ensures var q' := CountFailure(q, round.lived);
            round.lived + ReconnectDelay(q', round.fraction) + Deficit(q) >= 38.0 / 3.0 + Deficit(q')
  {
    var q' := CountFailure(q, round.lived);
    BaseLevels(q');
    DelayBounds(q', round.fraction);
    hide ReconnectDelay;
    hide BaseDelay;
  }

  lemma {:induction false} ElapsedAtLeast(q: nat, rounds: seq<Round>)
    requires Lived(rounds)
    ensures Elapsed(q, rounds) + Deficit(q) >= 38.0 / 3.0 * |rounds| as real
    decreases |rounds|
  {
    if rounds != [] {
      RoundCost(q, rounds[0]);
      ElapsedAtLeast(CountFailure(q, rounds[0].lived), rounds[1..]);
      hide ReconnectDelay;
      hide Deficit;
      assert |rounds| as real == 1.0 + |rounds[1..]| as real;
    }
  }

  /**
   Reconnect rate: however the connections end, at whatever point of a worker's life, N attempts in a row take at
   least (76 N - 287) / 6 seconds: in the long run at most one attempt every 12.6 seconds.
   */
  lemma {:induction false} AttemptsAreSpaced(q: nat, rounds: seq<Round>)
    requires Lived(rounds)
    ensures Elapsed(q, rounds) >= (76.0 * |rounds| as real - 287.0) / 6.0
  {
    ElapsedAtLeast(q, rounds);
  }

  lemma {:induction false} UndisturbedPrefix(q: nat, rounds: seq<Round>)
    ensures |Sleeps(q, rounds)| <= |rounds|
    ensures var done := rounds[..|Sleeps(q, rounds)|];
            Sleeps(q, done) == Sleeps(q, rounds) && forall i :: 0 <= i < |done| ==> done[i].cancelled.No?
    decreases |rounds|
  {
    hide ReconnectDelay;
    if rounds != [] && rounds[0].cancelled.No? {
      var q' := CountFailure(q, rounds[0].lived);
      UndisturbedPrefix(q', rounds[1..]);
      var n := |Sleeps(q', rounds[1..])|;
      assert |Sleeps(q, rounds)| == n + 1;
      assert rounds[..n + 1][1..] == rounds[1..][..n];
    }
  }

  /** The rounds that were slept to their end, whatever happened afterwards, took that long too. */
  lemma {:induction false} SleptRoundsAreSpaced(rounds: seq<Round>)
    requires Lived(rounds)
    ensures |Sleeps(0, rounds)| <= |rounds|
    ensures Lives(rounds[..|Sleeps(0, rounds)|]) + Sum(Sleeps(0, rounds)) >=
              (76.0 * |Sleeps(0, rounds)| as real - 287.0) / 6.0
  {
    UndisturbedPrefix(0, rounds);
    var done := rounds[..|Sleeps(0, rounds)|];
    ElapsedIsLivesAndSleeps(0, done);
    AttemptsAreSpaced(0, done);
    hide Sleeps;
  }

  function QuickRounds(n: nat): seq<Round> {
    seq(n, i => Round(0.0, 0.0, No))
  }

  /** Five immediate failures, then `k` times a connection of just a minute followed by five immediate failures. */
  function Fastest(k: nat): seq<Round> {
    if k == 0 then QuickRounds(5) else QuickRounds(5) + ([Round(60.0, 0.0, No)] + Fastest(k - 1))
  }

  /** The bound is the best possible: for every k there is a run of 5 + 6 k attempts that takes exactly that long. */
  lemma {:induction false} SpacingIsTight(k: nat)
    ensures |Fastest(k)| == 5 + 6 * k && Lived(Fastest(k))
    ensures Elapsed(0, Fastest(k)) == (76.0 * |Fastest(k)| as real - 287.0) / 6.0
  {
    if k == 0 {
      assert QuickRounds(5) + [] == QuickRounds(5);
      FiveQuick([]);
    } else {
      SpacingIsTight(k - 1);
      var rest := [Round(60.0, 0.0, No)] + Fastest(k - 1);
      FiveQuick(rest);
      BaseLevels(0);
      assert rest[1..] == Fastest(k - 1);
      hide Fastest;
      assert Elapsed(5, rest) == 60.5 + Elapsed(0, Fastest(k - 1));
    }
  }

  lemma {:induction false} FiveQuick(rest: seq<Round>)
    ensures Elapsed(0, QuickRounds(5) + rest) == 15.5 + Elapsed(5, rest)
  {
    var quick := Round(0.0, 0.0, No);
    OneQuick(4, rest);
    OneQuick(3, [quick] + rest);
    OneQuick(2, [quick] + ([quick] + rest));
    OneQuick(1, [quick] + ([quick] + ([quick] + rest)));
    OneQuick(0, [quick] + ([quick] + ([quick] + ([quick] + rest))));
    assert QuickRounds(5) + rest == [quick] + ([quick] + ([quick] + ([quick] + ([quick] + rest))));
    hide Elapsed;
  }

  lemma {:induction false} OneQuick(q: nat, rest: seq<Round>)
    requires q < 5
    ensures Elapsed(q, [Round(0.0, 0.0, No)] + rest) == BaseDelay(q + 1) as real / 2.0 + Elapsed(q + 1, rest)
    ensures BaseDelay(q + 1) ==
            if q == 0 then 1 else if q == 1 then 2 else if q == 2 then 4 else if q == 3 then 8 else 16
  {
    BaseLevels(q + 1);
    assert ([Round(0.0, 0.0, No)] + rest)[1..] == rest;
    hide BaseDelay;
  }
}
