/** EventPoller (qlappcom/eventpoller.cpp:86-94, 134-289, 297-534) with its queues as fields. Each method does to the
    whole state what the function of module PumpSpec says. */
module EventPoller {
  import opened PumpSpec

  class EventPoller {
    var ready: bool
    var delayedReqs: seq<Delayed>
    var pendingHandles: seq<Handle>
    var activeHandles: seq<Handle>
    var nextHandle: nat
    var done: seq<Request>
    ghost var asked: seq<Request>

    ghost function Contents(): Pump
      reads this
    {
      Pump(ready, delayedReqs, pendingHandles, activeHandles, nextHandle, asked, done)
    }

    constructor ()
      ensures Contents() == START
    {
      ready, delayedReqs, pendingHandles, activeHandles, nextHandle, done, asked := true, [], [], [], 0, [], [];
    }

    // ---- Asking ----

    method AddRequest(r: Request, now: int)
      modifies this
      ensures Contents() == Add(old(Contents()), r, now)
      decreases r, 2
    {
      asked := asked + [r];
      if !ready {
        CallDone(r, now);
        return;
      }
      if r.delayMs > 0 {
        delayedReqs := delayedReqs + [Delayed(r, now + r.delayMs)];
        return;
      }
      BuildHandle(r, now);
    }

    /** A new handle at the end of the pending ones, or the callback with an error. */
    method BuildHandle(r: Request, now: int)
      modifies this
      ensures Contents() == Enqueue(old(Contents()), r, now)
      decreases r, 1
    {
      if r.builds {
        pendingHandles := pendingHandles + [Handle(nextHandle, r, now)];
        nextHandle := nextHandle + 1;
      } else {
        CallDone(r, now);
      }
    }

    /** The callback of a request, and what it asks for in turn. */
    method CallDone(r: Request, now: int)
      modifies this
      ensures Contents() == Finish(old(Contents()), r, now)
      decreases r, 0
    {
      done := done + [r];
      ghost var start := Contents();
      var i := 0;
      while i < |r.followUps|
        invariant i <= |r.followUps|
        invariant AddAll(Contents(), r.followUps[i..], now) == AddAll(start, r.followUps, now)
      {
        AddRequest(r.followUps[i], now);
        assert r.followUps[i..][1..] == r.followUps[i + 1..];
        i := i + 1;
      }
    }

    // ---- One round of the pump ----

    method PromoteDelayed(now: int)
      modifies this
      ensures Contents() == Promote(old(Contents()), now)
    {
      while delayedReqs != [] && delayedReqs[0].readyAt <= now
        invariant Promote(Contents(), now) == Promote(old(Contents()), now)
        decreases Queued(Contents()), |delayedReqs|
      {
        PromoteOneSize(Contents(), now);
        var d := delayedReqs[0];
        delayedReqs := delayedReqs[1..];
        BuildHandle(d.req, now);
      }
    }

    method AttachPending(now: int)
      modifies this
      ensures Contents() == Attach(old(Contents()), now)
    {
      while pendingHandles != []
        invariant Attach(Contents(), now) == Attach(old(Contents()), now)
        decreases Queued(Contents())
      {
        AttachOneSize(Contents(), now);
        var easy := pendingHandles[0];
        pendingHandles := pendingHandles[1..];
        if ready && easy.req.attaches {
          activeHandles := activeHandles + [easy];
        } else {
          CallDone(easy.req, now);
        }
      }
    }

    method CallAllDone(rs: seq<Request>, now: int)
      modifies this
      ensures Contents() == FinishAll(old(Contents()), rs, now)
    {
      var i := 0;
      while i < |rs|
        invariant i <= |rs|
        invariant FinishAll(Contents(), rs[i..], now) == FinishAll(old(Contents()), rs, now)
      {
        CallDone(rs[i], now);
        assert rs[i..][1..] == rs[i + 1..];
        i := i + 1;
      }
    }

    method RecoverMulti(renewed: bool, now: int)
      modifies this
      ensures Contents() == Recover(old(Contents()), renewed, now)
    {
      var dead := Requests(activeHandles);
      activeHandles := [];
      ready := renewed;
      CallAllDone(dead, now);
    }

    /** The place of a handle among the active ones, or their number (eventpoller.cpp:421-425, 517-519). */
    method IndexOf(number: nat) returns (i: nat)
      ensures i <= |activeHandles| && (i < |activeHandles| <==> Holds(activeHandles, number))
      ensures i < |activeHandles| ==>
                && activeHandles[..i] + activeHandles[i + 1..] == Without(activeHandles, number)
                && activeHandles[i] == At(activeHandles, number) && activeHandles[i].number == number
    {
      i := 0;
      while i < |activeHandles| && activeHandles[i].number != number
        invariant i <= |activeHandles| && forall j :: 0 <= j < i ==> activeHandles[j].number != number
      {
        i := i + 1;
      }
      if i < |activeHandles| {
        FoundAt(activeHandles, number, i);
      }
    }

    method CollectStalled(now: int) returns (stalled: seq<Handle>)
      ensures stalled == Stalled(activeHandles, now)
    {
      stalled := [];
      var i := 0;
      while i < |activeHandles|
        invariant i <= |activeHandles|
        invariant stalled + Stalled(activeHandles[i..], now) == Stalled(activeHandles, now)
      {
        var c := activeHandles[i];
        assert activeHandles[i..][1..] == activeHandles[i + 1..];
        if c.req.stallSec > 0 && now - c.lastActive > c.req.stallSec * 1000 {
          stalled := stalled + [c];
        }
        i := i + 1;
      }
    }

    method WatchStalls(now: int)
      modifies this
      ensures Contents() == Watch(old(Contents()), now)
    {
      var stalled := CollectStalled(now);
      var i := 0;
      while i < |stalled|
        invariant i <= |stalled|
        invariant AbortAll(Contents(), stalled[i..], now) == Watch(old(Contents()), now)
      {
        assert stalled[i..][1..] == stalled[i + 1..];
        var idx := IndexOf(stalled[i].number);
        if idx < |activeHandles| {
          activeHandles := activeHandles[..idx] + activeHandles[idx + 1..];
          CallDone(stalled[i].req, now);
        }
        i := i + 1;
      }
    }

    method DispatchMessages(messages: seq<nat>, now: int)
      modifies this
      ensures Contents() == CompleteAll(old(Contents()), messages, now)
    {
      var i := 0;
      while i < |messages|
        invariant i <= |messages|
        invariant CompleteAll(Contents(), messages[i..], now) == CompleteAll(old(Contents()), messages, now)
      {
        assert messages[i..][1..] == messages[i + 1..];
        var idx := IndexOf(messages[i]);
        if idx < |activeHandles| {
          var easy := activeHandles[idx];
          ghost var before := Contents();
          activeHandles := activeHandles[..idx] + activeHandles[idx + 1..];
          CallDone(easy.req, now);
          assert Contents() == Complete(before, easy, now);
        }
        i := i + 1;
      }
    }

    method RunOnce(now: int, polled: bool, performed: bool, renewed: bool, messages: seq<nat>)
      modifies this
      ensures Contents() == Iteration(old(Contents()), now, polled, performed, renewed, messages)
    {
      PromoteDelayed(now);
      AttachPending(now);
      if !(ready && polled) {
        RecoverMulti(renewed, now);
        return;
      }
      if !performed {
        RecoverMulti(renewed, now);
        return;
      }
      WatchStalls(now);
      DispatchMessages(messages, now);
    }

    /** Bytes arrived on an active handle (eventpoller.cpp:97-118). */
    method NoteProgress(i: nat, now: int)
      requires i < |activeHandles|
      modifies `activeHandles
      ensures Contents() == Progress(old(Contents()), i, now)
    {
      if activeHandles[i].req.reportsProgress {
        activeHandles := activeHandles[i := activeHandles[i].(lastActive := now)];
      }
    }

    method Stop(now: int)
      modifies this
      ensures Contents() == PumpSpec.Stop(old(Contents()), now)
    {
      var orphanHandles, orphanDelayed := Requests(pendingHandles), DelayedRequests(delayedReqs);
      pendingHandles, delayedReqs := [], [];
      CallAllDone(orphanHandles, now);
      CallAllDone(orphanDelayed, now);
      ready := false;
    }
  }

  lemma {:induction false} FoundAt(hs: seq<Handle>, number: nat, i: nat)
    requires i < |hs| && hs[i].number == number && forall j :: 0 <= j < i ==> hs[j].number != number
    ensures Holds(hs, number) && hs[..i] + hs[i + 1..] == Without(hs, number) && hs[i] == At(hs, number)
  {
    if i > 0 {
      FoundAt(hs[1..], number, i - 1);
      assert hs[..i] + hs[i + 1..] == [hs[0]] + (hs[1..][..i - 1] + hs[1..][i..]);
    }
  }
}
