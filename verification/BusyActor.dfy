/**
 The busy-answer actor as the loop it is: its two variables, the branches of its select, and the test at its head.
 Each branch is proved to be the corresponding step of the actor, and with that to keep its bounds.
 */
module BusyActorLoop {
  import opened Options
  import opened Protocol
  import opened Parcels
  import opened BulkQueue
  import opened BusyAnswers

  /** `received` is the channel the actor reads from; `lost` and `posted` record what became of its answers. */
  class Actor {
    const cfg: Config
    var received: seq<Parcel>
    var inputOpen: bool
    var posts: seq<Parcel>
    var pc: ActorPc
    var lost: seq<Parcel>
    var posted: seq<Key>
    var used: int

    function Now(): BusyActor
      reads this
    {
      BusyActor(received, inputOpen, posts, pc)
    }

    constructor (cfg: Config, used: int)
      ensures ActorBounded(Now())
      ensures Now() == BusyActor([], true, [], Serving) && this.cfg == cfg && this.used == used && lost == []
      ensures posted == []
    {
      this.cfg, this.used := cfg, used;
      received, inputOpen, posts, pc := [], true, [], Serving;
      lost, posted := [], [];
    }

    /** The object has taken step `st` of the actor from `a` and `used0`. */
    twostate predicate Took(bulk: Bulk, v: ActorView, st: ActorStep)
      reads this
    {
      && old(lost) <= lost && old(posted) <= posted && |posted| <= |old(posted)| + 1
      && ActorNext(cfg, old(used), old(Now()), bulk, v, st)
         == Some(ActorResult(Now(), bulk, lost[|old(lost)|..],
                             if |posted| > |old(posted)| then Some(posted[|old(posted)|]) else None, used))
    }

    /** At most four posts and eight queued answers, before and after a step. */
    lemma {:induction false} BoundsKept(used0: int, a: BusyActor, bulk: Bulk, v: ActorView, st: ActorStep)
      requires ActorNext(cfg, used0, a, bulk, v, st).Some? && ActorNext(cfg, used0, a, bulk, v, st).value.a == Now()
      ensures ActorBounded(a) ==> ActorBounded(Now())
    {
      if ActorBounded(a) {
        ActorStaysBounded(cfg, used0, a, bulk, v, st);
      }
    }

    /** The branch that receives, enabled while the input is open and fewer than four posts are running. */
    method Receive(bulk: Bulk, v: ActorView)
      requires pc.Serving? && inputOpen && |posts| < BUSY_RESPONSE_CONCURRENCY && (received != [] || !v.senders)
      modifies `received, `posts, `inputOpen
      ensures Took(bulk, v, TakeBusy)
      ensures old(ActorBounded(Now())) ==> ActorBounded(Now())
    {
      assert lost[|lost|..] == [];
      if received != [] {
        var response := received[0];
        received := received[1..];
        posts := posts + [response];
      } else {
        inputOpen := false;
      }
      BoundsKept(old(used), old(Now()), bulk, v, TakeBusy);
    }

    /** A post prepares its form: it goes out if its memory is granted and fails at once otherwise. */
    method Prepare(bulk: Bulk, v: ActorView, i: nat, cap: nat)
      requires pc.Serving? && i < |posts| && posts[i].stage.Answered? && cfg.formLen(posts[i].now) <= cap
      modifies `posts, `pc, `posted, `used
      ensures Took(bulk, v, PrepareBusy(i, cap))
      ensures old(ActorBounded(Now())) ==> ActorBounded(Now())
    {
      assert lost[|lost|..] == [];
      var p := posts[i];
      if used + cap <= cfg.limit {
        used := used + cap;
        posts := posts[i := AttemptPost(p, cap)];
        posted := posted + [KeyOf(p)];
      } else {
        posts := RemoveAt(posts, i);
        pc := Answering(StartQueueing(FailPost(p, false)));
      }
      BoundsKept(old(used), old(Now()), bulk, v, PrepareBusy(i, cap));
    }

    /** A post whose access header cannot be encoded fails like one that was refused its memory. */
    method RefuseHeader(bulk: Bulk, v: ActorView, i: nat)
      requires pc.Serving? && i < |posts| && posts[i].stage.Answered?
      modifies `posts, `pc
      ensures Took(bulk, v, RefuseBusyHeader(i))
      ensures old(ActorBounded(Now())) ==> ActorBounded(Now())
    {
      assert lost[|lost|..] == [];
      var p := posts[i];
      posts := RemoveAt(posts, i);
      pc := Answering(StartQueueing(FailPost(p, false)));
      BoundsKept(old(used), old(Now()), bulk, v, RefuseBusyHeader(i));
    }

    /** The branch for a completed post: an accepted answer is done, a failed one starts on the WebSocket queue. */
    method Complete(bulk: Bulk, v: ActorView, i: nat, accepted: bool, timedOut: bool)
      requires pc.Serving? && i < |posts| && posts[i].stage.Posting?
      modifies `posts, `pc, `lost, `used
      ensures Took(bulk, v, if accepted then BusyAccepted(i) else BusyFailed(i, timedOut))
      ensures old(ActorBounded(Now())) ==> ActorBounded(Now())
    {
      var p := posts[i];
      posts := RemoveAt(posts, i);
      if accepted {
        used := used - p.held - p.extra;
        lost := lost + [Finish(p, Accepted)];
        assert lost[|old(lost)|..] == [Finish(p, Accepted)];
      } else {
        used := used - p.extra;
        pc := Answering(StartQueueing(FailPost(p, timedOut)));
        assert lost[|lost|..] == [];
      }
      BoundsKept(old(used), old(Now()), bulk, v, if accepted then BusyAccepted(i) else BusyFailed(i, timedOut));
    }

    /** The test at the head of the loop: with the input closed and no post running the actor returns. */
    method ReturnIfIdle(bulk: Bulk, v: ActorView) returns (returned: bool)
      requires pc.Serving? && (!inputOpen ==> received == [])
      modifies this
      ensures returned == (!old(inputOpen) && old(posts) == [])
      ensures returned ==> Took(bulk, v, EndActor)
      ensures !returned ==> unchanged(this)
    {
      returned := !inputOpen && posts == [];
      if returned {
        pc := Ended;
        assert lost[|lost|..] == [] + (DropAll([], ConnectionEnded) + DropAll([], ConnectionEnded));
        assert used == used - Total(Reserved, []) - Total(Reserved, []);
      }
    }
  }
}
