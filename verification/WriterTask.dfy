/**
 `run_writer` as the loop it is, on its two flags and two receivers. What arrives in the queues between two
 turns of the loop, when the senders go away, and whether a send succeeds is up to the environment.
 */
module WriterTask {
  import opened Parcels
  import opened WriterLoop
  import opened WriterTrace

  /**
   Before a turn of the loop the senders queue messages or go away; `sent` is the outcome of the turn's send, if it
   makes one.
   */
  datatype Turn = Turn(controls: seq<Control>, responses: seq<Key>, controlGone: bool, bulkGone: bool, sent: bool)

  /** How the loop ended, or that the environment's script did. */
  datatype Ending = Returned | WriteFailed | StillRunning

  /** A receiver: what waits in it, and whether it still has senders. `arrived` is everything that was ever queued. */
  class Receiver<T> {
    var queue: seq<T>
    var senders: bool
    var arrived: seq<T>

    constructor ()
      ensures queue == [] && arrived == [] && senders
    {
      queue, arrived, senders := [], [], true;
    }

    /** The senders' side. */
    method Arrive(items: seq<T>, gone: bool)
      modifies this
      ensures old(senders) ==> queue == old(queue) + items && arrived == old(arrived) + items
      ensures !old(senders) ==> queue == old(queue) && arrived == old(arrived)
      ensures senders == (old(senders) && !gone)
    {
      if senders {
        queue, arrived := queue + items, arrived + items;
      }
      senders := senders && !gone;
    }

    method Receive() returns (item: T)
      requires queue != []
      modifies `queue
      ensures [item] + queue == old(queue)
    {
      item := queue[0];
      queue := queue[1..];
    }
  }

  /**
   The frames handed to the sink, and for each of them how many control messages had arrived when it was started, and
   the turn whose send it was.
   */
  datatype Log = Log(frames: seq<Frame>, arrivals: seq<nat>, turns: seq<nat>)

  /** Each frame had its own turn, in order, and all of them before turn `i`. */
  predicate InTurn(log: Log, i: nat) {
    && |log.turns| == |log.frames|
    && (forall j :: 0 <= j < |log.turns| ==> log.turns[j] < i)
    && (forall j, k :: 0 <= j < k < |log.turns| ==> log.turns[j] < log.turns[k])
  }

  /** The sends of the first `n` frames succeeded. */
  predicate FirstSent(log: Log, script: seq<Turn>, n: int) {
    forall j :: 0 <= j < n && j < |log.turns| ==> log.turns[j] < |script| && script[log.turns[j]].sent
  }

  /** The last frame is no close frame and its send failed. */
  predicate LastFailed(log: Log, script: seq<Turn>) {
    && log.frames != [] && |log.turns| == |log.frames| && !IsClose(log.frames[|log.frames| - 1])
    && log.turns[|log.frames| - 1] < |script| && !script[log.turns[|log.frames| - 1]].sent
  }

  lemma {:induction false} TurnPush(log: Log, f: Frame, n: nat, i: nat, script: seq<Turn>)
    requires InTurn(log, i) && i < |script| && FirstSent(log, script, |log.frames|)
    ensures var log' := Push(log, f, n, i);
            && InTurn(log', i + 1) && FirstSent(log', script, |log'.frames| - 1)
            && (script[i].sent ==> FirstSent(log', script, |log'.frames|))
            && (LastFailed(log', script) <==> !IsClose(f) && !script[i].sent)
  {
    var log' := Push(log, f, n, i);
    assert log'.frames[|log.frames|] == f && log'.turns[|log.frames|] == i;
  }

  ghost predicate Priority(log: Log) {
    && |log.frames| == |log.arrivals|
    && forall i :: 0 <= i < |log.frames| && log.frames[i].BulkFrame? ==> |Controls(log.frames[..i])| == log.arrivals[i]
  }

  predicate NoCloseIn(frames: seq<Frame>) {
    forall i :: 0 <= i < |frames| ==> !IsClose(frames[i])
  }

  predicate CloseOnlyLast(frames: seq<Frame>) {
    forall i :: 0 <= i < |frames| - 1 ==> !IsClose(frames[i])
  }

  lemma {:induction false} PushKeepsCloseLast(frames: seq<Frame>, f: Frame)
    requires NoCloseIn(frames)
    ensures CloseOnlyLast(frames + [f]) && (NoCloseIn(frames + [f]) <==> !IsClose(f))
  {
    assert (frames + [f])[|frames|] == f;
  }

  /** Whatever was waiting first is the first frame; until then it waits at the head of the open control queue. */
  predicate FirstKept(initial: seq<Control>, frames: seq<Frame>, controlOpen: bool, queue: seq<Control>) {
    initial != [] ==>
      if frames == [] then controlOpen && queue != []
        && queue[0] == initial[0] else frames[0] == ControlFrame(initial[0])
  }

  lemma {:induction false} ControlKeepsFirst(
      initial: seq<Control>, frames: seq<Frame>, message: Control, rest: seq<Control>)
    requires FirstKept(initial, frames, true, [message] + rest)
    ensures FirstKept(initial, frames + [ControlFrame(message)], true, rest)
  {
  }

  lemma {:induction false} ArrivalKeepsFirst(
      initial: seq<Control>, frames: seq<Frame>, controlOpen: bool, queue: seq<Control>, items: seq<Control>)
    requires FirstKept(initial, frames, controlOpen, queue)
    ensures FirstKept(initial, frames, controlOpen, queue + items)
  {
  }

  lemma {:induction false} IdleKeepsFirst(initial: seq<Control>, frames: seq<Frame>, controlOpen: bool)
    requires FirstKept(initial, frames, controlOpen, [])
    ensures initial != [] ==> frames != []
    ensures FirstKept(initial, frames, false, [])
    ensures forall k :: FirstKept(initial, frames + [BulkFrame(k)], controlOpen, [])
  {
  }

  lemma {:induction false} LogPush(log: Log, f: Frame, n: nat)
    requires Priority(log) && (f.BulkFrame? ==> |Controls(log.frames)| == n)
    ensures forall i :: Priority(Push(log, f, n, i))
  {
    hide Controls;
    var frames := log.frames + [f];
    forall i | 0 <= i < |frames| && frames[i].BulkFrame? ensures |Controls(frames[..i])| == (log.arrivals + [n])[i] {
      assert frames[..i] == log.frames[..i];
      assert log.frames[..|log.frames|] == log.frames;
    }
  }

  /** What was started and what still waits is everything that arrived, in order. */
  predicate Tracks<T(==)>(started: seq<T>, queue: seq<T>, arrived: seq<T>) {
    started + queue == arrived
  }

  lemma {:induction false} Tracked<T>(started: seq<T>, queue: seq<T>, arrived: seq<T>)
    requires Tracks(started, queue, arrived)
    ensures started <= arrived && (queue == [] ==> started == arrived) && |queue| <= |arrived|
  {
  }

  lemma {:induction false} ArrivalTracked<T>(started: seq<T>, queue: seq<T>, arrived: seq<T>, items: seq<T>)
    requires Tracks(started, queue, arrived)
    ensures Tracks(started, queue + items, arrived + items)
  {
    assert started + (queue + items) == (started + queue) + items;
  }

  function Push(log: Log, f: Frame, n: nat, i: nat): Log {
    Log(log.frames + [f], log.arrivals + [n], log.turns + [i])
  }

  /** The first waiting message is handed to the sink. */
  lemma {:induction false} ControlStarted(
      log: Log, message: Control, rest: seq<Control>, waiting: seq<Control>, arrived: seq<Control>, i: nat)
    requires [message] + rest == waiting && Tracks(Controls(log.frames), waiting, arrived) && Priority(log)
    ensures var log' := Push(log, ControlFrame(message), |arrived|, i);
            && Tracks(Controls(log'.frames), rest, arrived)
            && BulkKeys(log'.frames) == BulkKeys(log.frames) && Priority(log')
  {
    FramePush(log.frames, ControlFrame(message));
    LogPush(log, ControlFrame(message), |arrived|);
    hide Controls;
    hide BulkKeys;
    hide Priority;
    assert (Controls(log.frames) + [message]) + rest == Controls(log.frames) + ([message] + rest);
    assert BulkKeys(log.frames) + [] == BulkKeys(log.frames);
  }

  /** With no control message waiting, the first waiting response is handed to the sink. */
  lemma {:induction false} ResponseStarted(
      log: Log, response: Key, rest: seq<Key>, waiting: seq<Key>, arrived: seq<Key>, n: nat, i: nat)
    requires [response] + rest == waiting && Tracks(BulkKeys(log.frames), waiting, arrived) && Priority(log)
    requires n == |Controls(log.frames)|
    ensures var log' := Push(log, BulkFrame(response), n, i);
            && Tracks(BulkKeys(log'.frames), rest, arrived)
            && Controls(log'.frames) == Controls(log.frames) && Priority(log')
  {
    FramePush(log.frames, BulkFrame(response));
    LogPush(log, BulkFrame(response), n);
    hide Controls;
    hide BulkKeys;
    hide Priority;
    assert (BulkKeys(log.frames) + [response]) + rest == BulkKeys(log.frames) + ([response] + rest);
    assert Controls(log.frames) + [] == Controls(log.frames);
  }

  /** By turn `k` the senders of both inputs are gone. */
  predicate GoneBy(script: seq<Turn>, k: nat, controlSenders: bool, bulkSenders: bool)
    requires k <= |script|
  {
    && (controlSenders ==> exists i :: 0 <= i < k && script[i].controlGone)
    && (bulkSenders ==> exists i :: 0 <= i < k && script[i].bulkGone)
  }

  /** All sends of the script succeed. */
  predicate AllSent(script: seq<Turn>) {
    forall i :: 0 <= i < |script| ==> script[i].sent
  }

  /**
   The script goes on, after the senders of both inputs are gone, for one turn per message that arrived and three
   more.
   */
  predicate LongEnough(script: seq<Turn>, controlSenders: bool, bulkSenders: bool, arrived: nat) {
    exists k :: 0 <= k <= |script| && GoneBy(script, k, controlSenders, bulkSenders) && k + arrived + 3 <= |script|
  }

  /** Which inputs still have senders before turn `i`. */
  predicate SendersAt(script: seq<Turn>, i: nat, c0: bool, b0: bool, c: bool, b: bool)
    requires i <= |script|
  {
    && (c <==> c0 && forall j :: 0 <= j < i ==> !script[j].controlGone)
    && (b <==> b0 && forall j :: 0 <= j < i ==> !script[j].bulkGone)
  }

  /** Not before turn `since` were the senders of both inputs gone. */
  predicate GoneSince(script: seq<Turn>, since: nat, c0: bool, b0: bool)
    requires since <= |script|
  {
    forall k :: 0 <= k < since ==> !GoneBy(script, k, c0, b0)
  }

  lemma {:induction false} NobodyGone(script: seq<Turn>, c0: bool, b0: bool)
    ensures SendersAt(script, 0, c0, b0, c0, b0) && GoneSince(script, 0, c0, b0)
  {
  }

  lemma {:induction false} SendersNext(script: seq<Turn>, i: nat, c0: bool, b0: bool, c: bool, b: bool)
    requires i < |script| && SendersAt(script, i, c0, b0, c, b)
    ensures SendersAt(script, i + 1, c0, b0, c && !script[i].controlGone, b && !script[i].bulkGone)
    ensures c || b ==> GoneSince(script, i + 1, c0, b0)
  {
  }

  /** A loop that is still running at the end of the script has not had its turns since the senders left. */
  lemma {:induction false} InTime(
      script: seq<Turn>, since: nat, c0: bool, b0: bool, c: bool, b: bool, left: nat, arrived: nat)
    requires SendersAt(script, |script|, c0, b0, c, b) && left > 0
    requires !c && !b ==>
              since <= |script| && GoneSince(script, since, c0, b0) && left + |script| <= since + arrived + 3
    ensures !LongEnough(script, c0, b0, arrived)
  {
    forall k | 0 <= k && k + arrived + 3 <= |script| ensures !GoneBy(script, k, c0, b0) {
      if !c && !b {
        assert k < since;
      }
    }
  }

  lemma {:induction false} SentTurn(script: seq<Turn>, i: nat)
    requires i < |script|
    ensures AllSent(script) ==> script[i].sent
  {
  }

  /** Turns of the loop that are left once nobody queues anything any more. */
  function TurnsLeft<T, U>(controls: seq<T>, responses: seq<U>, controlOpen: bool, bulkOpen: bool): nat {
    |controls| + |responses| + (if controlOpen then 1 else 0) + (if bulkOpen then 1 else 0) + 1
  }

  /** What the two inputs and the frames have to do with each other. */
  ghost predicate InOrder(
      first: seq<Control>, log: Log, control: Receiver<Control>, bulk: Receiver<Key>, controlOpen: bool, bulkOpen: bool)
    reads control, bulk
  {
    && Tracks(Controls(log.frames), control.queue, control.arrived)
    && Tracks(BulkKeys(log.frames), bulk.queue, bulk.arrived)
    && (!controlOpen ==> control.queue == [] && !control.senders)
    && (!bulkOpen ==> bulk.queue == [] && !bulk.senders)
    && Priority(log) && CloseOnlyLast(log.frames) && NoCloseIn(log.frames)
    && FirstKept(first, log.frames, controlOpen, control.queue)
  }

  /**
   What the loop keeps as long as it runs, before turn `i` of the script; `first` is what waited in the control queue at
   the start.
   */
  ghost predicate Running(
      first: seq<Control>, log: Log, control: Receiver<Control>, bulk: Receiver<Key>, controlOpen: bool, bulkOpen: bool,
      script: seq<Turn>, i: nat)
    reads control, bulk
  {
    && InTurn(log, i) && FirstSent(log, script, |log.frames|)
    && InOrder(first, log, control, bulk, controlOpen, bulkOpen)
  }

  /** What is true of the frames however the loop ends. */
  ghost predicate Ordered(first: seq<Control>, log: Log, control: Receiver<Control>, bulk: Receiver<Key>)
    reads control, bulk
  {
    && Controls(log.frames) <= control.arrived && BulkKeys(log.frames) <= bulk.arrived
    && Priority(log) && CloseOnlyLast(log.frames)
    && (first != [] && log.frames != [] ==> log.frames[0] == ControlFrame(first[0]))
  }

  /** And what the ending says about them, and they about the ending. */
  ghost predicate Written(
      first: seq<Control>, log: Log, control: Receiver<Control>, bulk: Receiver<Key>, ending: Ending,
      script: seq<Turn>, i: nat)
    reads control, bulk
  {
    && Ordered(first, log, control, bulk)
    && InTurn(log, i) && FirstSent(log, script, |log.frames| - 1)
    && (NoCloseIn(log.frames) && !ending.WriteFailed? ==> FirstSent(log, script, |log.frames|))
    && (ending.WriteFailed? <==> LastFailed(log, script))
    && (ending.Returned? && NoCloseIn(log.frames) ==>
          && !control.senders && !bulk.senders
          && Controls(log.frames) == control.arrived && BulkKeys(log.frames) == bulk.arrived)
    && (!ending.Returned? ==> NoCloseIn(log.frames))
  }

  /** The same right after a frame was handed to the sink whose send failed. */
  ghost predicate Failing(
      first: seq<Control>, log: Log, control: Receiver<Control>, bulk: Receiver<Key>, controlOpen: bool, bulkOpen: bool,
      script: seq<Turn>, i: nat)
    reads control, bulk
  {
    && InTurn(log, i) && FirstSent(log, script, |log.frames| - 1) && LastFailed(log, script)
    && InOrder(first, log, control, bulk, controlOpen, bulkOpen)
  }

  lemma {:induction false} FailingIsWritten(
      first: seq<Control>, log: Log, control: Receiver<Control>, bulk: Receiver<Key>, controlOpen: bool, bulkOpen: bool,
      script: seq<Turn>, i: nat)
    requires Failing(first, log, control, bulk, controlOpen, bulkOpen, script, i)
    ensures Written(first, log, control, bulk, WriteFailed, script, i)
  {
    Tracked(Controls(log.frames), control.queue, control.arrived);
    Tracked(BulkKeys(log.frames), bulk.queue, bulk.arrived);
    hide Controls;
    hide BulkKeys;
    hide Priority;
    hide InTurn;
    hide FirstSent;
  }

  lemma {:induction false} AllWereSent(log: Log, script: seq<Turn>, i: nat)
    requires InTurn(log, i) && FirstSent(log, script, |log.frames|)
    ensures FirstSent(log, script, |log.frames| - 1) && !LastFailed(log, script)
  {
  }

  lemma {:induction false} RunningIsWritten(
      first: seq<Control>, log: Log, control: Receiver<Control>, bulk: Receiver<Key>, controlOpen: bool, bulkOpen: bool,
      script: seq<Turn>, i: nat)
    requires Running(first, log, control, bulk, controlOpen, bulkOpen, script, i)
    ensures Written(first, log, control, bulk, StillRunning, script, i)
    ensures !controlOpen && !bulkOpen ==> Written(first, log, control, bulk, Returned, script, i)
    ensures |control.queue| <= |control.arrived| && |bulk.queue| <= |bulk.arrived|
  {
    AllWereSent(log, script, i);
    hide InTurn;
    hide FirstSent;
    hide LastFailed;
    Tracked(Controls(log.frames), control.queue, control.arrived);
    Tracked(BulkKeys(log.frames), bulk.queue, bulk.arrived);
    hide Controls;
    hide BulkKeys;
    hide Priority;
  }

  /** A control message is received and handed to the sink. */
  method StartControl(
      ghost first: seq<Control>, log: Log, control: Receiver<Control>, bulk: Receiver<Key>, ghost bulkOpen: bool,
      i: nat)
    returns (message: Control, log': Log)
    requires InOrder(first, log, control, bulk, true, bulkOpen) && control.queue != []
    modifies control`queue
    ensures [message] + control.queue == old(control.queue)
    ensures log' == Push(log, ControlFrame(message), |control.arrived|, i)
    ensures if message.Close? then Ordered(first, log', control, bulk)
            else InOrder(first, log', control, bulk, true, bulkOpen)
  {
    hide Controls;
    hide BulkKeys;
    hide Priority;
    hide Tracks;
    hide NoCloseIn;
    hide CloseOnlyLast;
    hide FirstKept;
    ghost var waiting := control.queue;
    message := control.Receive();
    PushKeepsCloseLast(log.frames, ControlFrame(message));
    ControlKeepsFirst(first, log.frames, message, control.queue);
    ControlStarted(log, message, control.queue, waiting, control.arrived, i);
    log' := Push(log, ControlFrame(message), |control.arrived|, i);
    Tracked(Controls(log'.frames), control.queue, control.arrived);
    Tracked(BulkKeys(log'.frames), bulk.queue, bulk.arrived);
    FirstFrame(first, log'.frames, true, control.queue);
  }

  /** With no control message waiting, a response is received and handed to the sink. */
  method StartResponse(
      ghost first: seq<Control>, log: Log, control: Receiver<Control>, bulk: Receiver<Key>, ghost controlOpen: bool,
      i: nat)
    returns (log': Log)
    requires InOrder(first, log, control, bulk, controlOpen, true) && control.queue == [] && bulk.queue != []
    modifies bulk`queue
    ensures |bulk.queue| == |old(bulk.queue)| - 1
    ensures log' == Push(log, BulkFrame(old(bulk.queue)[0]), |control.arrived|, i)
    ensures InOrder(first, log', control, bulk, controlOpen, true)
  {
    hide Controls;
    hide BulkKeys;
    hide Priority;
    hide Tracks;
    hide NoCloseIn;
    hide CloseOnlyLast;
    hide FirstKept;
    Tracked(Controls(log.frames), control.queue, control.arrived);
    ghost var waiting := bulk.queue;
    var response := bulk.Receive();
    PushKeepsCloseLast(log.frames, BulkFrame(response));
    IdleKeepsFirst(first, log.frames, controlOpen);
    ResponseStarted(log, response, bulk.queue, waiting, bulk.arrived, |control.arrived|, i);
    log' := Push(log, BulkFrame(response), |control.arrived|, i);
  }

  /**
   Turn `i` of the loop, one pass through the biased select: a control message is sent if one waits, else a response if
   one waits and nobody may queue control messages without the loop having seen it; a failed send ends the loop.
   */
  method Select(
      ghost first: seq<Control>, log: Log, control: Receiver<Control>, bulk: Receiver<Key>, controlOpen: bool,
      bulkOpen: bool, ghost script: seq<Turn>, i: nat, sent: bool)
    returns (controlOpen': bool, bulkOpen': bool, log': Log, ending: Ending)
    requires Running(first, log, control, bulk, controlOpen, bulkOpen, script, i)
    requires i < |script| && sent == script[i].sent
    modifies control`queue, bulk`queue
    ensures if ending.StillRunning? then Running(first, log', control, bulk, controlOpen', bulkOpen', script, i + 1)
            else Written(first, log', control, bulk, ending, script, i + 1)
    ensures if old(control.queue) != [] then
              log' == Push(log, ControlFrame(old(control.queue)[0]), |control.arrived|, i)
            else if old(bulk.queue) != [] && (control.senders || !controlOpen) then
              log' == Push(log, BulkFrame(old(bulk.queue)[0]), |control.arrived|, i)
            else log' == log
    ensures sent ==> !ending.WriteFailed?
    ensures !control.senders && !bulk.senders && ending.StillRunning? ==>
              TurnsLeft(control.queue, bulk.queue, controlOpen', bulkOpen')
              == TurnsLeft(old(control.queue), old(bulk.queue), controlOpen, bulkOpen) - 1
  {
    hide Tracks;
    hide FirstKept;
    hide Written;
    hide InTurn;
    hide FirstSent;
    hide LastFailed;
    hide Priority;
    hide Controls;
    hide BulkKeys;
    hide NoCloseIn;
    hide CloseOnlyLast;
    Later(log, i);
    controlOpen', bulkOpen', log', ending := controlOpen, bulkOpen, log, StillRunning;
    if controlOpen && control.queue != [] {
      var message;
      message, log' := StartControl(first, log, control, bulk, bulkOpen, i);
      TurnPush(log, ControlFrame(message), |control.arrived|, i, script);
      if message.Close? {
        ending := Returned;
        HasClose(log, ControlFrame(message), |control.arrived|, i);
        ClosedIsWritten(first, log', control, bulk, script, i + 1);
      } else if !sent {
        ending := WriteFailed;
        FailingIsWritten(first, log', control, bulk, controlOpen', bulkOpen', script, i + 1);
      }
    } else if controlOpen && !control.senders {
      IdleKeepsFirst(first, log.frames, controlOpen);
      controlOpen' := false;
    } else if bulkOpen && bulk.queue != [] {
      log' := StartResponse(first, log, control, bulk, controlOpen, i);
      TurnPush(log, BulkFrame(old(bulk.queue)[0]), |control.arrived|, i, script);
      if !sent {
        ending := WriteFailed;
        FailingIsWritten(first, log', control, bulk, controlOpen', bulkOpen', script, i + 1);
      }
    } else if bulkOpen && !bulk.senders {
      bulkOpen' := false;
    } else if !controlOpen && !bulkOpen {
      ending := Returned;
      RunningIsWritten(first, log, control, bulk, controlOpen', bulkOpen', script, i + 1);
    }
  }

  lemma {:induction false} Later(log: Log, i: nat)
    requires InTurn(log, i)
    ensures InTurn(log, i + 1)
  {
  }

  lemma {:induction false} HasClose(log: Log, f: Frame, n: nat, i: nat)
    requires IsClose(f)
    ensures !NoCloseIn(Push(log, f, n, i).frames)
  {
    assert Push(log, f, n, i).frames[|log.frames|] == f;
  }

  lemma {:induction false} ClosedIsWritten(
      first: seq<Control>, log: Log, control: Receiver<Control>, bulk: Receiver<Key>, script: seq<Turn>, i: nat)
    requires InTurn(log, i) && FirstSent(log, script, |log.frames| - 1) && !LastFailed(log, script)
    requires Ordered(first, log, control, bulk) && !NoCloseIn(log.frames)
    ensures Written(first, log, control, bulk, Returned, script, i)
  {
  }

  /** New arrivals, and senders that leave, do not disturb the loop. */
  method TakeArrivals(ghost first: seq<Control>, ghost log: Log, control: Receiver<Control>, bulk: Receiver<Key>,
                      ghost controlOpen: bool, ghost bulkOpen: bool, turn: Turn)
    requires InOrder(first, log, control, bulk, controlOpen, bulkOpen)
    modifies control, bulk
    ensures InOrder(first, log, control, bulk, controlOpen, bulkOpen)
    ensures control.senders == (old(control.senders) && !turn.controlGone)
    ensures bulk.senders == (old(bulk.senders) && !turn.bulkGone)
    ensures !old(control.senders) ==> control.queue == old(control.queue) && control.arrived == old(control.arrived)
    ensures !old(bulk.senders) ==> bulk.queue == old(bulk.queue) && bulk.arrived == old(bulk.arrived)
  {
    hide Controls;
    hide BulkKeys;
    hide Tracks;
    hide FirstKept;
    ArrivalTracked(Controls(log.frames), control.queue, control.arrived, turn.controls);
    ArrivalTracked(BulkKeys(log.frames), bulk.queue, bulk.arrived, turn.responses);
    ArrivalKeepsFirst(first, log.frames, controlOpen, control.queue, turn.controls);
    control.Arrive(turn.controls, turn.controlGone);
    bulk.Arrive(turn.responses, turn.bulkGone);
  }

  lemma {:induction false} TurnsBound<T, U>(controls: seq<T>, responses: seq<U>, controlOpen: bool, bulkOpen: bool)
    ensures 0 < TurnsLeft(controls, responses, controlOpen, bulkOpen) <= |controls| + |responses| + 3
  {
  }

  lemma {:induction false} RunningAtFirst(control: Receiver<Control>, bulk: Receiver<Key>, script: seq<Turn>)
    requires control.queue == control.arrived && bulk.queue == bulk.arrived
    ensures Running(control.queue, Log([], [], []), control, bulk, true, true, script, 0)
  {
    EmptyLog(control.queue, bulk.queue);
  }

  /**
   The loop. Control messages and responses leave in the order they arrived; a response is started only when every
   control message that had arrived by then was started before it; nothing follows a close frame; and a loop that
   returns without having sent one has sent everything that ever arrived. And it does return: with the senders gone
   and all sends succeeding, after one turn for each message and response and three more.
   */
  method RunWriter(
      control: Receiver<Control>, bulk: Receiver<Key>, script: seq<Turn>) returns (ending: Ending, log: Log)
    requires control.queue == control.arrived && bulk.queue == bulk.arrived
    modifies control, bulk
    ensures Controls(log.frames) <= control.arrived && BulkKeys(log.frames) <= bulk.arrived
    ensures Priority(log)
    ensures CloseOnlyLast(log.frames)
    ensures ending.Returned? && NoCloseIn(log.frames) ==>
              && !control.senders && !bulk.senders
              && Controls(log.frames) == control.arrived && BulkKeys(log.frames) == bulk.arrived
    ensures InTurn(log, |script|) && FirstSent(log, script, |log.frames| - 1)
    ensures NoCloseIn(log.frames) && !ending.WriteFailed? ==> FirstSent(log, script, |log.frames|)
    ensures ending.WriteFailed? <==> LastFailed(log, script)
    ensures !ending.Returned? ==> NoCloseIn(log.frames)
    ensures old(control.queue) != [] && log.frames != [] ==> log.frames[0] == ControlFrame(old(control.queue[0]))
    ensures AllSent(script)
            && LongEnough(script, old(control.senders), old(bulk.senders), |control.arrived| + |bulk.arrived|)
            ==> ending.Returned?
  {
    hide AllSent;
    hide LongEnough;
    hide TurnsLeft;
    hide InOrder;
    hide Written;
    hide InTurn;
    hide FirstSent;
    hide LastFailed;
    hide Tracks;
    hide FirstKept;
    hide Controls;
    hide BulkKeys;
    hide Priority;
    hide CloseOnlyLast;
    hide NoCloseIn;
    hide SendersAt;
    hide GoneSince;
    hide GoneBy;
    ghost var first, c0, b0, since := control.queue, control.senders, bulk.senders, 0;
    RunningAtFirst(control, bulk, script);
    TurnsBound(control.queue, bulk.queue, true, true);
    NobodyGone(script, c0, b0);
    log := Log([], [], []);
    ending := StillRunning;
    var controlOpen, bulkOpen := true, true;
    var i := 0;
    while i < |script| && ending.StillRunning?
      invariant i <= |script|
      invariant if ending.StillRunning? then Running(first, log, control, bulk, controlOpen, bulkOpen, script, i)
                else Written(first, log, control, bulk, ending, script, i)
      invariant AllSent(script) ==> !ending.WriteFailed?
      invariant SendersAt(script, i, c0, b0, control.senders, bulk.senders)
      invariant !control.senders && !bulk.senders ==> since <= i && GoneSince(script, since, c0, b0)
      invariant !control.senders && !bulk.senders && ending.StillRunning? ==>
                  TurnsLeft(control.queue, bulk.queue, controlOpen, bulkOpen) + i <=
                    since + |control.arrived| + |bulk.arrived| + 3
    {
      var turn := script[i];
      SentTurn(script, i);
      SendersNext(script, i, c0, b0, control.senders, bulk.senders);
      if control.senders || bulk.senders {
        since := i + 1;
      }
      TakeArrivals(first, log, control, bulk, controlOpen, bulkOpen, turn);
      TurnsBound(control.queue, bulk.queue, controlOpen, bulkOpen);
      controlOpen, bulkOpen, log, ending :=
        Select(first, log, control, bulk, controlOpen, bulkOpen, script, i, turn.sent);
      i := i + 1;
      if ending.StillRunning? {
        RunningIsWritten(first, log, control, bulk, controlOpen, bulkOpen, script, i);
        TurnsBound(control.queue, bulk.queue, controlOpen, bulkOpen);
      }
    }
    if ending.StillRunning? {
      TurnsBound(control.queue, bulk.queue, controlOpen, bulkOpen);
      RunningIsWritten(first, log, control, bulk, controlOpen, bulkOpen, script, i);
      InTime(script, since, c0, b0, control.senders, bulk.senders,
          TurnsLeft(control.queue, bulk.queue, controlOpen, bulkOpen),
             |control.arrived| + |bulk.arrived|);
    }
    WrittenMeans(first, log, control, bulk, ending, script, i);
  }

  lemma {:induction false} WrittenMeans(
      first: seq<Control>, log: Log, control: Receiver<Control>, bulk: Receiver<Key>, ending: Ending,
      script: seq<Turn>, i: nat)
    requires Written(first, log, control, bulk, ending, script, i) && i <= |script|
    ensures Controls(log.frames) <= control.arrived && BulkKeys(log.frames) <= bulk.arrived
    ensures Priority(log) && CloseOnlyLast(log.frames)
    ensures InTurn(log, |script|) && FirstSent(log, script, |log.frames| - 1)
    ensures NoCloseIn(log.frames) && !ending.WriteFailed? ==> FirstSent(log, script, |log.frames|)
    ensures ending.WriteFailed? <==> LastFailed(log, script)
    ensures ending.Returned? && NoCloseIn(log.frames) ==>
              && !control.senders && !bulk.senders
              && Controls(log.frames) == control.arrived && BulkKeys(log.frames) == bulk.arrived
    ensures !ending.Returned? ==> NoCloseIn(log.frames)
    ensures first != [] && log.frames != [] ==> log.frames[0] == ControlFrame(first[0])
  {
  }

  lemma {:induction false} FirstFrame(initial: seq<Control>, frames: seq<Frame>, controlOpen: bool, queue: seq<Control>)
    requires FirstKept(initial, frames, controlOpen, queue)
    ensures initial != [] && frames != [] ==> frames[0] == ControlFrame(initial[0])
  {
  }

  lemma {:induction false} EmptyLog(controls: seq<Control>, responses: seq<Key>)
    ensures NoCloseIn([]) && CloseOnlyLast([]) && FirstKept(controls, [], true, controls)
    ensures Tracks(Controls([]), controls, controls) && Tracks(BulkKeys([]), responses, responses)
    ensures Priority(Log([], [], []))
  {
  }
}
