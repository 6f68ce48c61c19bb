/**
 All workers of the process: each connects, runs one connection to its end, rests and connects again, for
 ever; all of them share one memory budget.
 */
module System {
  import opened Options
  import opened Parcels
  import opened Connection
  import opened ConnectionRuns
  import opened ConnectionSafety
  import opened ConnectionEnd

  datatype Worker = Resting | Connected(c: Conn)

  datatype Process = Process(workers: seq<Worker>, used: int)

  datatype Move =
    | Connect(i: nat)
    | Work(i: nat, st: Step)
    | Disconnect(i: nat)   // `run_connection` has returned

  function Resume(cfg: Config, p: Process, m: Move): Option<Process> {
    match m
    case Connect(i) =>
      if i < |p.workers| && p.workers[i].Resting? then Some(p.(workers := p.workers[i := Connected(INIT)])) else None
    case Work(i, st) =>
      if i < |p.workers| && p.workers[i].Connected? then
        var s :- Next(cfg, State(p.workers[i].c, p.used), st);
        Some(Process(p.workers[i := Connected(s.c)], s.used))
      else None
    case Disconnect(i) =>
      if i < |p.workers| && p.workers[i].Connected? && p.workers[i].c.pc.Returned? then
        Some(p.(workers := p.workers[i := Resting]))
      else None
  }

  function Runs(cfg: Config, p: Process, moves: seq<Move>): Option<Process>
    decreases |moves|
  {
    if moves == [] then Some(p)
    else
      var p' :- Resume(cfg, p, moves[0]);
      Runs(cfg, p', moves[1..])
  }

  /** `n` workers that have not connected yet, nothing reserved. */
  function Start(n: nat): Process {
    Process(seq(n, _ => Resting), 0)
  }

  function Holding(m: Measure, w: Worker): nat {
    match w
    case Resting => 0
    case Connected(c) => LiveTotal(m, c)
  }

  function Sum(m: Measure, ws: seq<Worker>): nat {
    if ws == [] then 0 else Holding(m, ws[0]) + Sum(m, ws[1..])
  }

  lemma {:induction false} SumUpdate(m: Measure, ws: seq<Worker>, i: nat, w: Worker)
    requires i < |ws|
    ensures Sum(m, ws[i := w]) + Holding(m, ws[i]) == Sum(m, ws) + Holding(m, w)
    ensures Holding(m, ws[i]) <= Sum(m, ws)
  {
    hide Holding;
    if i > 0 {
      SumUpdate(m, ws[1..], i - 1, w);
      assert ws[i := w][1..] == ws[1..][i - 1 := w];
    } else {
      assert ws[i := w][1..] == ws[1..];
    }
  }

  lemma {:induction false} SumOfResting(m: Measure, ws: seq<Worker>)
    requires forall i :: 0 <= i < |ws| ==> ws[i].Resting?
    ensures Sum(m, ws) == 0
  {
    if ws != [] {
      SumOfResting(m, ws[1..]);
    }
  }

  /**
   The budget counter is the sum of what the workers hold, and every connection is one that can be reached on its own.
   */
  ghost predicate ProcessOk(cfg: Config, p: Process) {
    && p.used == Sum(Reserved, p.workers) <= cfg.limit
    && forall i :: 0 <= i < |p.workers| && p.workers[i].Connected? ==> Reachable(cfg, State(p.workers[i].c, p.used))
  }

  /** What one worker does looks to every other connection like somebody else's use of the budget. */
  lemma {:induction false} OthersStayReachable(cfg: Config, c: Conn, used: int, used': int)
    requires Reachable(cfg, State(c, used)) && LiveTotal(Reserved, c) <= used' <= cfg.limit
    ensures Reachable(cfg, State(c, used'))
  {
    hide Reachable;
    hide LiveTotal;
    RunOne(cfg, State(c, used), Others(used'));
    StaysReachable(cfg, State(c, used), [Others(used')]);
  }

  lemma {:induction false} FirstIsReachable(cfg: Config, used: int)
    requires 0 <= used <= cfg.limit
    ensures Reachable(cfg, State(INIT, used)) && LiveTotal(Reserved, INIT) == 0
  {
    assert Run(cfg, State(INIT, used), []) == Some(State(INIT, used));
  }

  lemma {:induction false} OwnStepReachable(cfg: Config, s: State, st: Step)
    requires Reachable(cfg, s) && Next(cfg, s, st).Some?
    ensures var s' := Next(cfg, s, st).value;
            && Reachable(cfg, s') && s'.used <= cfg.limit
            && s'.used - LiveTotal(Reserved, s'.c) == s.used - LiveTotal(Reserved, s.c)
  {
    hide Reachable;
    hide Next;
    ReachableOk(cfg, s);
    RunOne(cfg, s, Own(st));
    StaysReachable(cfg, s, [Own(st)]);
    StepKeepsInv(cfg, s, st);
    BudgetHolds(cfg, Next(cfg, s, st).value);
    hide Inv;
    hide LiveTotal;
  }

  lemma {:induction false} BudgetHolds(cfg: Config, s: State)
    requires Inv(cfg, s)
    ensures LiveTotal(Reserved, s.c) <= s.used <= cfg.limit
  {
  }

  /** Worker `i` changes; the others see only the new counter. */
  lemma {:induction false} Replace(cfg: Config, p: Process, i: nat, w: Worker, used': int)
    requires ProcessOk(cfg, p) && i < |p.workers|
    requires used' == p.used - Holding(Reserved, p.workers[i]) + Holding(Reserved, w) <= cfg.limit
    requires w.Connected? ==> Reachable(cfg, State(w.c, used'))
    ensures ProcessOk(cfg, Process(p.workers[i := w], used'))
  {
    hide Reachable;
    hide LiveTotal;
    SumUpdate(Reserved, p.workers, i, w);
    var ws := p.workers[i := w];
    forall j | 0 <= j < |ws| && ws[j].Connected? ensures Reachable(cfg, State(ws[j].c, used')) {
      if j != i {
        SumUpdate(Reserved, ws, j, Resting);
        OthersStayReachable(cfg, ws[j].c, p.used, used');
      }
    }
  }

  lemma {:induction false} MoveKeepsOk(cfg: Config, p: Process, m: Move)
    requires ProcessOk(cfg, p) && Resume(cfg, p, m).Some?
    ensures ProcessOk(cfg, Resume(cfg, p, m).value)
  {
    hide Reachable;
    hide Next;
    hide LiveTotal;
    match m {
      case Connect(i) =>
        FirstIsReachable(cfg, p.used);
        Replace(cfg, p, i, Connected(INIT), p.used);
      case Work(i, st) =>
        var s := State(p.workers[i].c, p.used);
        OwnStepReachable(cfg, s, st);
        var s' := Next(cfg, s, st).value;
        Replace(cfg, p, i, Connected(s'.c), s'.used);
      case Disconnect(i) =>
        NothingLeftBehind(cfg, State(p.workers[i].c, p.used));
        Replace(cfg, p, i, Resting, p.used);
    }
  }

  lemma {:induction false} RunsKeepOk(cfg: Config, p: Process, moves: seq<Move>)
    requires ProcessOk(cfg, p) && Runs(cfg, p, moves).Some?
    ensures ProcessOk(cfg, Runs(cfg, p, moves).value)
    decreases |moves|
  {
    hide ProcessOk;
    hide Resume;
    if moves != [] {
      MoveKeepsOk(cfg, p, moves[0]);
      RunsKeepOk(cfg, Resume(cfg, p, moves[0]).value, moves[1..]);
    }
  }

  lemma {:induction false} StartOk(cfg: Config, n: nat)
    ensures ProcessOk(cfg, Start(n))
  {
    SumOfResting(Reserved, Start(n).workers);
  }

  /**
   Whatever any number of workers do, however often they reconnect: every connection is in a state that a single
   connection can reach next to an arbitrary environment, so everything proved about one holds for all of them.
   */
  lemma {:induction false} ConnectionsAreIndependent(cfg: Config, n: nat, moves: seq<Move>, i: nat)
    requires Runs(cfg, Start(n), moves).Some?
    requires var p := Runs(cfg, Start(n), moves).value; i < |p.workers| && p.workers[i].Connected?
    ensures var p := Runs(cfg, Start(n), moves).value; Reachable(cfg, State(p.workers[i].c, p.used))
  {
    hide Reachable;
    hide Resume;
    StartOk(cfg, n);
    RunsKeepOk(cfg, Start(n), moves);
  }

  /**
   The budget over unboundedly many reconnects: the counter is exactly what the live connections have reserved, it
   covers every live buffer and never exceeds the limit; with no connection up it is zero.
   */
  lemma {:induction false} NoLeak(cfg: Config, n: nat, moves: seq<Move>)
    requires Runs(cfg, Start(n), moves).Some?
    ensures var p := Runs(cfg, Start(n), moves).value;
            && Sum(Capacity, p.workers) <= Sum(Reserved, p.workers) == p.used <= cfg.limit
            && ((forall i :: 0 <= i < |p.workers| ==> p.workers[i].Resting?) ==> p.used == 0)
  {
    hide Reachable;
    hide Resume;
    StartOk(cfg, n);
    RunsKeepOk(cfg, Start(n), moves);
    var p := Runs(cfg, Start(n), moves).value;
    SumCovered(cfg, p.workers, p.used);
    if forall i :: 0 <= i < |p.workers| ==> p.workers[i].Resting? {
      SumOfResting(Reserved, p.workers);
    }
  }

  lemma {:induction false} SumCovered(cfg: Config, ws: seq<Worker>, used: int)
    requires forall i :: 0 <= i < |ws| && ws[i].Connected? ==> Reachable(cfg, State(ws[i].c, used))
    ensures Sum(Capacity, ws) <= Sum(Reserved, ws)
  {
    hide Reachable;
    hide LiveTotal;
    if ws != [] {
      if ws[0].Connected? {
        BufferCoverage(cfg, State(ws[0].c, used));
      }
      SumCovered(cfg, ws[1..], used);
    }
  }

  lemma {:induction false} SumFootprint(cfg: Config, ws: seq<Worker>, used: int)
    requires forall i :: 0 <= i < |ws| && ws[i].Connected? ==> Reachable(cfg, State(ws[i].c, used))
    ensures Sum(Items, ws) <= 23 * |ws|
  {
    hide Reachable;
    hide LiveTotal;
    hide LiveParcels;
    if ws != [] {
      if ws[0].Connected? {
        BoundedFootprint(cfg, State(ws[0].c, used));
        TotalLive(Items, ws[0].c);
        TotalItems(LiveParcels(ws[0].c));
      }
      SumFootprint(cfg, ws[1..], used);
    }
  }

  /** The whole process never holds more than 23 responses per worker. */
  lemma {:induction false} ProcessFootprint(cfg: Config, n: nat, moves: seq<Move>)
    requires Runs(cfg, Start(n), moves).Some?
    ensures var p := Runs(cfg, Start(n), moves).value; |p.workers| == n && Sum(Items, p.workers) <= 23 * n
  {
    hide Reachable;
    hide Resume;
    StartOk(cfg, n);
    RunsKeepOk(cfg, Start(n), moves);
    WorkersStay(cfg, Start(n), moves);
    var p := Runs(cfg, Start(n), moves).value;
    SumFootprint(cfg, p.workers, p.used);
  }

  lemma {:induction false} WorkersStay(cfg: Config, p: Process, moves: seq<Move>)
    requires Runs(cfg, p, moves).Some?
    ensures |Runs(cfg, p, moves).value.workers| == |p.workers|
    decreases |moves|
  {
    hide Next;
    if moves != [] {
      WorkersStay(cfg, Resume(cfg, p, moves[0]).value, moves[1..]);
    }
  }

  /**
   A worker can only connect again after its previous connection has ended every part of it and given back all memory.
   */
  lemma {:induction false} CleanHandover(cfg: Config, n: nat, moves: seq<Move>, i: nat)
    requires Runs(cfg, Start(n), moves).Some?
    requires Resume(cfg, Runs(cfg, Start(n), moves).value, Disconnect(i)).Some?
    ensures var p := Runs(cfg, Start(n), moves).value; var c := p.workers[i].c;
            && c.task.None? && !WriterAlive(c) && !ActorAlive(c) && LiveParcels(c) == []
            && p.used == Sum(Reserved, p.workers[i := Resting])
  {
    hide Reachable;
    hide LiveParcels;
    hide LiveTotal;
    var p := Runs(cfg, Start(n), moves).value;
    ConnectionsAreIndependent(cfg, n, moves, i);
    NothingLeftBehind(cfg, State(p.workers[i].c, p.used));
    NoLeak(cfg, n, moves);
    SumUpdate(Reserved, p.workers, i, Resting);
  }

  function WorkMoves(i: nat, steps: seq<Step>): seq<Move> {
    if steps == [] then [] else [Work(i, steps[0])] + WorkMoves(i, steps[1..])
  }

  lemma {:induction false} OneMove(cfg: Config, p: Process, m: Move, rest: seq<Move>)
    requires Resume(cfg, p, m).Some?
    ensures Runs(cfg, p, [m] + rest) == Runs(cfg, Resume(cfg, p, m).value, rest)
  {
    assert ([m] + rest)[1..] == rest;
  }

  /** What a connection can do by its own steps its worker can do in the process, and then go on. */
  lemma {:induction false} WorkIsRun(cfg: Config, p: Process, i: nat, steps: seq<Step>, rest: seq<Move>)
    requires i < |p.workers| && p.workers[i].Connected?
    requires Run(cfg, State(p.workers[i].c, p.used), OwnEvents(steps)).Some?
    ensures var s := Run(cfg, State(p.workers[i].c, p.used), OwnEvents(steps)).value;
            Runs(cfg, p, WorkMoves(i, steps) + rest) == Runs(cfg, Process(p.workers[i := Connected(s.c)], s.used), rest)
    decreases |steps|
  {
    hide Next;
    if steps == [] {
      assert p.workers[i := p.workers[i]] == p.workers && WorkMoves(i, steps) + rest == rest;
    } else {
      var m := Work(i, steps[0]);
      var later := WorkMoves(i, steps[1..]) + rest;
      assert OwnEvents(steps)[1..] == OwnEvents(steps[1..]);
      assert WorkMoves(i, steps) + rest == [m] + later;
      var p' := Resume(cfg, p, m).value;
      OneMove(cfg, p, m, later);
      WorkIsRun(cfg, p', i, steps[1..], rest);
      var w := Connected(Run(cfg, State(p.workers[i].c, p.used), OwnEvents(steps)).value.c);
      assert p'.workers[i := w] == p.workers[i := w];
    }
  }

  /**
   A connection whose session has ended can always be brought to its end by its own worker, in at most 8 moves; the
   worker rests, nobody else is touched, and the budget has back exactly what the connection had reserved.
   */
  lemma {:induction false} EndsAndRests(cfg: Config, p: Process, i: nat) returns (moves: seq<Move>)
    requires ProcessOk(cfg, p) && i < |p.workers| && p.workers[i].Connected? && RunOver(p.workers[i].c.pc)
    ensures |moves| <= 8
    ensures Runs(cfg, p, moves) ==
              Some(Process(p.workers[i := Resting], p.used - LiveTotal(Reserved, p.workers[i].c)))
  {
    hide Reachable;
    hide Next;
    hide LiveTotal;
    hide Sum;
    var steps := TeardownTerminates(cfg, State(p.workers[i].c, p.used));
    var s := Run(cfg, State(p.workers[i].c, p.used), OwnEvents(steps)).value;
    hide Run;
    WorkIsRun(cfg, p, i, steps, [Disconnect(i)]);
    WorkLength(i, steps);
    moves := WorkMoves(i, steps) + [Disconnect(i)];
    var p' := Process(p.workers[i := Connected(s.c)], s.used);
    assert [Disconnect(i)] + [] == [Disconnect(i)];
    OneMove(cfg, p', Disconnect(i), []);
    assert p'.workers[i := Resting] == p.workers[i := Resting];
  }

  lemma {:induction false} WorkLength(i: nat, steps: seq<Step>)
    ensures |WorkMoves(i, steps)| == |steps|
  {
    if steps != [] {
      WorkLength(i, steps[1..]);
    }
  }

  /** A resting worker can always connect, be shut down, and rest again with nothing changed. */
  lemma {:induction false} RoundTrip(cfg: Config, p: Process, i: nat) returns (moves: seq<Move>)
    requires ProcessOk(cfg, p) && i < |p.workers| && p.workers[i].Resting?
    ensures |moves| <= 10 && moves != [] && moves[0] == Connect(i) && Runs(cfg, p, moves) == Some(p)
  {
    hide Next;
    hide ProcessOk;
    hide LiveTotal;
    hide RunOver;
    var shutdown := SessionMoves(ObserveShutdown);
    ShutDownAtOnce(cfg, p.used);
    var p1 := p.(workers := p.workers[i := Connected(INIT)]);
    MoveKeepsOk(cfg, p, Connect(i));
    var c := Next(cfg, State(INIT, p.used), shutdown).value.c;
    var p2 := Process(p1.workers[i := Connected(c)], p.used);
    assert Resume(cfg, p1, Work(i, shutdown)) == Some(p2);
    hide Resume;
    MoveKeepsOk(cfg, p1, Work(i, shutdown));
    var rest := EndsAndRests(cfg, p2, i);
    moves := [Connect(i)] + ([Work(i, shutdown)] + rest);
    assert Resume(cfg, p, Connect(i)) == Some(p1) by {
      ConnectIsFree(cfg, p, i);
    }
    OneMove(cfg, p1, Work(i, shutdown), rest);
    OneMove(cfg, p, Connect(i), [Work(i, shutdown)] + rest);
    assert p2.workers[i := Resting] == p.workers;
  }

  lemma {:induction false} ShutDownAtOnce(cfg: Config, used: int)
    ensures var r := Next(cfg, State(INIT, used), SessionMoves(ObserveShutdown));
            r.Some? && r.value.used == used && RunOver(r.value.c.pc) && LiveTotal(Reserved, r.value.c) == 0
  {
  }

  lemma {:induction false} ConnectIsFree(cfg: Config, p: Process, i: nat)
    requires i < |p.workers| && p.workers[i].Resting?
    ensures Resume(cfg, p, Connect(i)) == Some(p.(workers := p.workers[i := Connected(INIT)]))
  {
  }
}
