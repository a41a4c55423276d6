/** Delayed requests over whole runs (qlappcom/eventpoller.cpp:172-190, 355-363). */
module PumpDelays {
  // Which requests wait, by what was asked for and when: the first ones that are ready at the last admission, together
  // with all ahead of them, have left, and all others wait in order.

  import opened PumpSpec
  import opened PumpLaws

  /** Those that ask for a delay, each ready that many milliseconds later. */
  function DelayedOf(rs: seq<Request>, now: int): (ds: seq<Delayed>)
    ensures forall i :: 0 <= i < |ds| ==> ds[i].readyAt > now
  {
    if rs == [] then []
    else if rs[0].delayMs > 0 then [Delayed(rs[0], now + rs[0].delayMs)] + DelayedOf(rs[1..], now)
    else DelayedOf(rs[1..], now)
  }

  /** What is asked for between p and q, in order. */
  function NewlyAsked(p: Pump, q: Pump): seq<Request> {
    if p.asked <= q.asked then q.asked[|p.asked|..] else []
  }

  function NewlyDelayed(p: Pump, q: Pump, now: int): (ds: seq<Delayed>)
    ensures forall i :: 0 <= i < |ds| ==> ds[i].readyAt > now
  {
    if q.ready then DelayedOf(NewlyAsked(p, q), now) else []
  }

  /** From p to q the queue has grown by the requests that ask for a delay. */
  predicate Queues(p: Pump, q: Pump, now: int) {
    q.ready == p.ready && p.asked <= q.asked && q.delayed == p.delayed + NewlyDelayed(p, q, now)
  }

  lemma {:induction false} DelayedOfBoth(a: seq<Request>, b: seq<Request>, now: int)
    ensures DelayedOf(a + b, now) == DelayedOf(a, now) + DelayedOf(b, now)
  {
    if a == [] {
      assert a + b == b;
    } else {
      assert (a + b)[1..] == a[1..] + b && (a + b)[0] == a[0];
      DelayedOfBoth(a[1..], b, now);
    }
  }

  lemma QueuesTwice(p: Pump, q: Pump, r: Pump, now: int)
    requires Queues(p, q, now) && Queues(q, r, now)
    ensures Queues(p, r, now)
  {
    var a, b := NewlyAsked(p, q), NewlyAsked(q, r);
    assert NewlyAsked(p, r) == a + b;
    DelayedOfBoth(a, b, now);
    hide DelayedOf;
    assert r.delayed == p.delayed + (NewlyDelayed(p, q, now) + NewlyDelayed(q, r, now));
  }

  /** Nothing is asked for. */
  lemma QueuesNone(p: Pump, q: Pump, now: int)
    requires q.ready == p.ready && q.asked == p.asked && q.delayed == p.delayed
    ensures Queues(p, q, now)
  {
    assert NewlyAsked(p, q) == [];
  }

  // ---- Each operation ----

  lemma {:induction false} AddQueues(p: Pump, r: Request, now: int)
    ensures Queues(p, Add(p, r, now), now)
    decreases r, 2
  {
    var q := p.(asked := p.asked + [r]);
    assert NewlyAsked(p, q) == [r] && [r][1..] == [];
    assert DelayedOf([r], now) == if r.delayMs > 0 then [Delayed(r, now + r.delayMs)] else [];
    if p.ready && r.delayMs > 0 {
      assert NewlyAsked(p, Add(p, r, now)) == [r];
    } else {
      assert Queues(p, q, now);
      if p.ready {
        EnqueueQueues(q, r, now);
      } else {
        FinishQueues(q, r, now);
      }
      hide Queues, DelayedOf;
      QueuesTwice(p, q, Add(p, r, now), now);
    }
  }

  lemma {:induction false} EnqueueQueues(p: Pump, r: Request, now: int)
    ensures Queues(p, Enqueue(p, r, now), now)
    decreases r, 1
  {
    if r.builds {
      QueuesNone(p, Enqueue(p, r, now), now);
    } else {
      FinishQueues(p, r, now);
    }
  }

  lemma {:induction false} FinishQueues(p: Pump, r: Request, now: int)
    ensures Queues(p, Finish(p, r, now), now)
    decreases r, 0
  {
    var q := p.(done := p.done + [r]);
    QueuesNone(p, q, now);
    AddAllQueues(q, r.followUps, now);
    hide Queues;
    QueuesTwice(p, q, Finish(p, r, now), now);
  }

  lemma {:induction false} AddAllQueues(p: Pump, rs: seq<Request>, now: int)
    ensures Queues(p, AddAll(p, rs, now), now)
    decreases rs
  {
    if rs == [] {
      QueuesNone(p, p, now);
    } else {
      hide Queues, Add;
      AddQueues(p, rs[0], now);
      AddAllQueues(Add(p, rs[0], now), rs[1..], now);
      QueuesTwice(p, Add(p, rs[0], now), AddAll(p, rs, now), now);
    }
  }

  lemma {:induction false} FinishAllQueues(p: Pump, rs: seq<Request>, now: int)
    ensures Queues(p, FinishAll(p, rs, now), now)
    decreases |rs|
  {
    if rs == [] {
      QueuesNone(p, p, now);
    } else {
      hide Queues, Finish;
      FinishQueues(p, rs[0], now);
      FinishAllQueues(Finish(p, rs[0], now), rs[1..], now);
      QueuesTwice(p, Finish(p, rs[0], now), FinishAll(p, rs, now), now);
    }
  }

  lemma {:induction false} AttachQueues(p: Pump, now: int)
    ensures Queues(p, Attach(p, now), now)
    decreases Queued(p)
  {
    if p.pending == [] {
      QueuesNone(p, p, now);
    } else {
      var h, q := p.pending[0], p.(pending := p.pending[1..]);
      QueuesNone(p, q, now);
      if p.ready && h.req.attaches {
        QueuesNone(p, AttachOne(p, now), now);
      } else {
        FinishQueues(q, h.req, now);
        hide Finish;
      }
      hide Queues, Queued;
      assert !(p.ready && h.req.attaches) ==> Queues(q, AttachOne(p, now), now);
      if !(p.ready && h.req.attaches) {
        QueuesTwice(p, q, AttachOne(p, now), now);
      }
      AttachOneSize(p, now);
      hide AttachOne;
      AttachQueues(AttachOne(p, now), now);
      QueuesTwice(p, AttachOne(p, now), Attach(p, now), now);
    }
  }

  lemma {:induction false} AbortAllQueues(p: Pump, hs: seq<Handle>, now: int)
    ensures Queues(p, AbortAll(p, hs, now), now)
    decreases |hs|
  {
    QueuesNone(p, p, now);
    if hs != [] {
      EndQueues(p, hs[0], now);
      hide Queues, Finish, Without, Holds;
      AbortAllQueues(Abort(p, hs[0], now), hs[1..], now);
      QueuesTwice(p, Abort(p, hs[0], now), AbortAll(p, hs, now), now);
    }
  }

  lemma EndQueues(p: Pump, h: Handle, now: int)
    ensures Queues(p, Finish(p.(active := Without(p.active, h.number)), h.req, now), now)
  {
    var q := p.(active := Without(p.active, h.number));
    QueuesNone(p, q, now);
    FinishQueues(q, h.req, now);
    hide Queues, Finish, Without;
    QueuesTwice(p, q, Finish(q, h.req, now), now);
  }

  /** From p to q those due have left, and the queue has grown by what asks for a delay. */
  predicate Admits(p: Pump, q: Pump, now: int) {
    && q.ready == p.ready && p.asked <= q.asked
    && q.delayed == p.delayed[Due(p.delayed, now)..] + NewlyDelayed(p, q, now)
  }

  lemma {:induction false} PromoteAdmits(p: Pump, now: int)
    ensures Admits(p, Promote(p, now), now)
    decreases Queued(p), |p.delayed|
  {
    if !IsDue(p, now) {
      assert NewlyAsked(p, p) == [] && p.delayed[0..] + [] == p.delayed;
    } else {
      var q := PromoteOne(p, now);
      EnqueueQueues(p.(delayed := p.delayed[1..]), p.delayed[0].req, now);
      PromoteOneSize(p, now);
      hide Queued;
      PromoteAdmits(q, now);
      PromotedOne(p, q, Promote(q, now), now);
    }
  }

  lemma FirstTaken(ds: seq<Delayed>, more: seq<Delayed>, later: seq<Delayed>, now: int)
    requires ds != [] && ds[0].readyAt <= now && forall i :: 0 <= i < |more| ==> more[i].readyAt > now
    ensures var queue := ds[1..] + more;
            queue[Due(queue, now)..] + later == ds[Due(ds, now)..] + (more + later)
  {
    var rest := ds[1..];
    var k := Due(rest, now);
    DueBeforeOthers(rest, more, now);
    assert Due(ds, now) == 1 + k;
    hide Due;
    assert ds[1 + k..] == rest[k..] && (rest + more)[k..] == rest[k..] + more;
  }

  lemma PromotedOne(p: Pump, q: Pump, r: Pump, now: int)
    requires p.delayed != [] && p.delayed[0].readyAt <= now
    requires Queues(p.(delayed := p.delayed[1..]), q, now) && Admits(q, r, now)
    ensures Admits(p, r, now)
  {
    var a, b := NewlyAsked(p, q), NewlyAsked(q, r);
    assert NewlyAsked(p, r) == a + b && NewlyAsked(p.(delayed := p.delayed[1..]), q) == a;
    DelayedOfBoth(a, b, now);
    hide DelayedOf, Due;
    FirstTaken(p.delayed, NewlyDelayed(p, q, now), NewlyDelayed(q, r, now), now);
  }

  lemma AdmitsAndQueues(p: Pump, q: Pump, r: Pump, now: int)
    requires Admits(p, q, now) && Queues(q, r, now)
    ensures Admits(p, r, now)
  {
    var a, b := NewlyAsked(p, q), NewlyAsked(q, r);
    assert NewlyAsked(p, r) == a + b;
    DelayedOfBoth(a, b, now);
    hide DelayedOf, Due;
    var left := p.delayed[Due(p.delayed, now)..];
    assert left + NewlyDelayed(p, q, now) + NewlyDelayed(q, r, now)
           == left + (NewlyDelayed(p, q, now) + NewlyDelayed(q, r, now));
  }

  /** The queue after any step but a shutdown. */
  lemma StepQueues(p: Pump, e: Event)
    requires Possible(p, e) && !e.StopAt?
    ensures var q := Step(p, e);
            && p.asked <= q.asked
            && q.delayed == (if e.AdmitAt? then p.delayed[Due(p.delayed, e.now)..] else p.delayed)
                            + NewlyDelayed(p, q, e.now)
  {
    hide Add, Promote, Attach, FinishAll, AbortAll, Finish, DelayedOf, Due;
    match e
    case Ask(r, now) => AddQueues(p, r, now);
    case AdmitAt(now) =>
      PromoteAdmits(p, now);
      AttachQueues(Promote(p, now), now);
      AdmitsAndQueues(p, Promote(p, now), Admit(p, now), now);
    case RecoverAt(renewed, now) =>
      var q := p.(active := [], ready := renewed);
      FinishAllQueues(q, Requests(p.active), now);
      assert NewlyAsked(p, Recover(p, renewed, now)) == NewlyAsked(q, Recover(p, renewed, now));
    case WatchAt(now) => AbortAllQueues(p, Stalled(p.active, now), now);
    case Message(i, now) => EndQueues(p, p.active[i], now);
    case Bytes(i, now) => QueuesNone(p, Progress(p, i, now), now);
  }

  // ---- Runs ----

  /** All requests with a delay that are asked for in the run, by callbacks too, in order. */
  function Ever(p: Pump, es: seq<Event>): seq<Delayed>
    requires AllPossible(p, es)
    decreases |es|
  {
    if es == [] then []
    else NewlyDelayed(p, Step(p, es[0]), es[0].now) + Ever(Step(p, es[0]), es[1..])
  }

  lemma {:induction false} RunQueues(p: Pump, es: seq<Event>, all: seq<Delayed>, admitted: int, since: int)
    requires AllPossible(p, es) && Running(es, since) && admitted <= since
    requires p.delayed == all[Due(all, admitted)..]
    ensures var whole := all + Ever(p, es);
            Run(p, es).delayed == whole[Due(whole, LastAdmission(es, admitted))..]
    decreases |es|
  {
    hide Step, Possible, Due, NewlyDelayed;
    if es == [] {
      assert all + Ever(p, es) == all;
    } else {
      var e, q := es[0], Step(p, es[0]);
      var more := NewlyDelayed(p, q, e.now);
      var u := if e.AdmitAt? then e.now else admitted;
      StepQueues(p, e);
      DueLater(all, admitted, u);
      DueBeforeOthers(all, more, u);
      assert all[Due(all, admitted)..][Due(p.delayed, u)..] == all[Due(all, u)..];
      assert (all + more)[Due(all, u)..] == all[Due(all, u)..] + more;
      RunQueues(q, es[1..], all + more, u, e.now);
      assert all + more + Ever(q, es[1..]) == all + Ever(p, es);
    }
  }

  /** At the end of every run from the start, without a shutdown and with a clock that does not run backwards, the queue
      is what was ever asked for with a delay, without the first ones that were ready at the last admission. */
  lemma QueueExactly(es: seq<Event>, since: int)
    requires AllPossible(START, es) && Running(es, since)
    ensures var all := Ever(START, es);
            Run(START, es).delayed == all[Due(all, LastAdmission(es, since))..]
  {
    RunQueues(START, es, [], since, since);
    assert [] + Ever(START, es) == Ever(START, es);
  }

  /** The i-th of them still waits exactly when it, or one asked for before it, was not ready then: its delay was not
      over at the time. */
  lemma WaitsExactly(es: seq<Event>, since: int, i: nat)
    requires AllPossible(START, es) && Running(es, since) && i < |Ever(START, es)|
    ensures var all, u, queue := Ever(START, es), LastAdmission(es, since), Run(START, es).delayed;
            && |queue| <= |all| && queue == all[|all| - |queue|..]
            && (i >= |all| - |queue| <==> exists j :: 0 <= j <= i && all[j].readyAt > u)
  {
    var all := Ever(START, es);
    QueueExactly(es, since);
    DueExactly(all, LastAdmission(es, since), i);
  }
}
