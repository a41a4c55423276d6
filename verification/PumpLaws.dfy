/** What every run of the pump keeps: each request asked for is in exactly one place, its callback is called once,
    delays are honoured in order, and what a shutdown leaves without a callback. */
module PumpLaws {
  import opened PumpSpec

  // ---- Conservation ----

  function InFlight(p: Pump): multiset<Request> {
    multiset(DelayedRequests(p.delayed)) + multiset(Requests(p.pending)) + multiset(Requests(p.active))
  }

  /** Every request asked for is in flight or done; those of rs are in neither place at the moment. */
  predicate Owes(p: Pump, rs: multiset<Request>) {
    multiset(p.asked) == InFlight(p) + multiset(p.done) + rs
  }

  predicate Conserved(p: Pump) {
    Owes(p, multiset{})
  }

  lemma RequestsAppend(a: seq<Handle>, b: seq<Handle>)
    ensures Requests(a + b) == Requests(a) + Requests(b)
  {
  }

  lemma DelayedAppend(a: seq<Delayed>, b: seq<Delayed>)
    ensures DelayedRequests(a + b) == DelayedRequests(a) + DelayedRequests(b)
  {
  }

  /** What an addition, and a callback, may change. */
  predicate Extends(p: Pump, q: Pump, now: int) {
    && q.ready == p.ready && q.active == p.active && p.next <= q.next
    && p.delayed <= q.delayed && p.pending <= q.pending && p.asked <= q.asked && p.done <= q.done
    && forall j :: |p.delayed| <= j < |q.delayed| ==> q.delayed[j].readyAt > now
  }

  lemma ExtendsTwice(p: Pump, q: Pump, r: Pump, now: int)
    requires Extends(p, q, now) && Extends(q, r, now)
    ensures Extends(p, r, now)
  {
  }

  lemma Delays(p: Pump, r: Request, now: int, rs: multiset<Request>)
    requires Owes(p, rs + multiset{r}) && r.delayMs > 0
    ensures var q := p.(delayed := p.delayed + [Delayed(r, now + r.delayMs)]);
            Owes(q, rs) && Extends(p, q, now)
  {
    DelayedAppend(p.delayed, [Delayed(r, now + r.delayMs)]);
    assert DelayedRequests([Delayed(r, now + r.delayMs)]) == [r];
  }

  lemma {:induction false} AddLaw(p: Pump, r: Request, now: int, rs: multiset<Request>)
    requires Owes(p, rs)
    ensures Owes(Add(p, r, now), rs) && Extends(p, Add(p, r, now), now)
    decreases r, 2
  {
    var q := p.(asked := p.asked + [r]);
    assert Owes(q, rs + multiset{r}) && Extends(p, q, now);
    hide Owes, Extends, Enqueue, Finish;
    if !p.ready {
      FinishLaw(q, r, now, rs);
    } else if r.delayMs > 0 {
      Delays(q, r, now, rs);
    } else {
      EnqueueLaw(q, r, now, rs);
    }
    ExtendsTwice(p, q, Add(p, r, now), now);
  }

  lemma {:induction false} EnqueueLaw(p: Pump, r: Request, now: int, rs: multiset<Request>)
    requires Owes(p, rs + multiset{r})
    ensures Owes(Enqueue(p, r, now), rs) && Extends(p, Enqueue(p, r, now), now)
    decreases r, 1
  {
    if r.builds {
      RequestsAppend(p.pending, [Handle(p.next, r, now)]);
      assert Requests([Handle(p.next, r, now)]) == [r];
    } else {
      FinishLaw(p, r, now, rs);
    }
  }

  lemma {:induction false} FinishLaw(p: Pump, r: Request, now: int, rs: multiset<Request>)
    requires Owes(p, rs + multiset{r})
    ensures Owes(Finish(p, r, now), rs) && Extends(p, Finish(p, r, now), now)
    ensures p.done + [r] <= Finish(p, r, now).done
    decreases r, 0
  {
    AddAllLaw(p.(done := p.done + [r]), r.followUps, now, rs);
  }

  lemma {:induction false} AddAllLaw(p: Pump, rs: seq<Request>, now: int, owed: multiset<Request>)
    requires Owes(p, owed)
    ensures Owes(AddAll(p, rs, now), owed) && Extends(p, AddAll(p, rs, now), now)
    decreases rs
  {
    if rs != [] {
      hide Owes, Extends, Add;
      AddLaw(p, rs[0], now, owed);
      AddAllLaw(Add(p, rs[0], now), rs[1..], now, owed);
      ExtendsTwice(p, Add(p, rs[0], now), AddAll(p, rs, now), now);
    }
  }

  lemma FirstOwed(owed: multiset<Request>, rs: seq<Request>)
    requires rs != []
    ensures owed + multiset(rs) == owed + multiset(rs[1..]) + multiset{rs[0]}
  {
    assert rs == [rs[0]] + rs[1..];
  }

  lemma {:induction false} FinishAllLaw(p: Pump, rs: seq<Request>, now: int, owed: multiset<Request>)
    requires Owes(p, owed + multiset(rs))
    ensures Owes(FinishAll(p, rs, now), owed) && Extends(p, FinishAll(p, rs, now), now)
    decreases |rs|
  {
    if rs == [] {
      assert owed + multiset(rs) == owed;
    } else {
      hide Owes, Extends, Finish;
      FirstOwed(owed, rs);
      FinishLaw(p, rs[0], now, owed + multiset(rs[1..]));
      FinishAllLaw(Finish(p, rs[0], now), rs[1..], now, owed);
      ExtendsTwice(p, Finish(p, rs[0], now), FinishAll(p, rs, now), now);
    }
  }

  // ---- Handles ----

  /** Handle numbers ascend through the active and then the pending handles, so no handle is in two places. */
  predicate Ordered(p: Pump) {
    var hs := p.active + p.pending;
    && (forall i, j :: 0 <= i < j < |hs| ==> hs[i].number < hs[j].number)
    && (forall i :: 0 <= i < |hs| ==> hs[i].number < p.next)
  }

  lemma {:induction false} AddOrdered(p: Pump, r: Request, now: int)
    requires Ordered(p)
    ensures Ordered(Add(p, r, now))
    decreases r, 2
  {
    var q := p.(asked := p.asked + [r]);
    assert Ordered(q);
    if !p.ready {
      FinishOrdered(q, r, now);
    } else if r.delayMs > 0 {
    } else {
      EnqueueOrdered(q, r, now);
    }
  }

  lemma {:induction false} EnqueueOrdered(p: Pump, r: Request, now: int)
    requires Ordered(p)
    ensures Ordered(Enqueue(p, r, now))
    decreases r, 1
  {
    if r.builds {
      var q := Enqueue(p, r, now);
      assert q.active + q.pending == (p.active + p.pending) + [Handle(p.next, r, now)];
    } else {
      FinishOrdered(p, r, now);
    }
  }

  lemma {:induction false} FinishOrdered(p: Pump, r: Request, now: int)
    requires Ordered(p)
    ensures Ordered(Finish(p, r, now))
    decreases r, 0
  {
    AddAllOrdered(p.(done := p.done + [r]), r.followUps, now);
  }

  lemma {:induction false} AddAllOrdered(p: Pump, rs: seq<Request>, now: int)
    requires Ordered(p)
    ensures Ordered(AddAll(p, rs, now))
    decreases rs
  {
    if rs != [] {
      hide Ordered, Add;
      AddOrdered(p, rs[0], now);
      AddAllOrdered(Add(p, rs[0], now), rs[1..], now);
    }
  }

  lemma {:induction false} FinishAllOrdered(p: Pump, rs: seq<Request>, now: int)
    requires Ordered(p)
    ensures Ordered(FinishAll(p, rs, now))
    decreases |rs|
  {
    if rs != [] {
      hide Ordered, Finish;
      FinishOrdered(p, rs[0], now);
      FinishAllOrdered(Finish(p, rs[0], now), rs[1..], now);
    }
  }

  /** The invariant of every reachable state. */
  predicate Valid(p: Pump) {
    Conserved(p) && Ordered(p)
  }

  // ---- Admission ----

  /** Taken off its queue, the first request is owed. */
  lemma PopDelayed(p: Pump)
    requires Valid(p) && p.delayed != []
    ensures var q := p.(delayed := p.delayed[1..]);
            Owes(q, multiset{} + multiset{p.delayed[0].req}) && Ordered(q)
  {
    hide Ordered;
    OrderedKept(p, p.(delayed := p.delayed[1..]));
    assert p.delayed == [p.delayed[0]] + p.delayed[1..];
    DelayedAppend([p.delayed[0]], p.delayed[1..]);
    assert DelayedRequests([p.delayed[0]]) == [p.delayed[0].req];
  }

  lemma OrderedKept(p: Pump, q: Pump)
    requires Ordered(p) && q.active + q.pending == p.active + p.pending && q.next == p.next
    ensures Ordered(q)
  {
  }

  lemma PopPending(p: Pump)
    requires Valid(p) && p.pending != []
    ensures var q := p.(pending := p.pending[1..]);
            && Owes(q, multiset{} + multiset{p.pending[0].req}) && Ordered(q)
            && Valid(q.(active := q.active + [p.pending[0]]))
  {
    var h, q := p.pending[0], p.(pending := p.pending[1..]);
    assert p.pending == [h] + p.pending[1..] && Requests([h]) == [h.req];
    RequestsAppend([h], p.pending[1..]);
    RequestsAppend(p.active, [h]);
    assert (p.active + [h]) + p.pending[1..] == p.active + p.pending;
    OrderedKept(p, q.(active := q.active + [h]));
    OrderedWithout(p, |p.active|, q);
  }

  /** One handle left out. */
  lemma OrderedWithout(p: Pump, k: nat, q: Pump)
    requires Ordered(p) && k < |p.active + p.pending| && q.next == p.next
    requires var hs := p.active + p.pending; q.active + q.pending == hs[..k] + hs[k + 1..]
    ensures Ordered(q)
  {
  }

  lemma PromoteOneLaw(p: Pump, now: int)
    requires Valid(p) && p.delayed != []
    ensures var q := PromoteOne(p, now); Valid(q) && Extends(p.(delayed := p.delayed[1..]), q, now)
  {
    hide Owes, Ordered, Enqueue;
    PopDelayed(p);
    EnqueueLaw(p.(delayed := p.delayed[1..]), p.delayed[0].req, now, multiset{});
    EnqueueOrdered(p.(delayed := p.delayed[1..]), p.delayed[0].req, now);
  }

  lemma AttachOneLaw(p: Pump, now: int)
    requires Valid(p) && p.pending != []
    ensures var q := AttachOne(p, now);
            && Valid(q) && p.ready == q.ready && p.delayed <= q.delayed && p.asked <= q.asked && p.done <= q.done
            && forall j :: |p.delayed| <= j < |q.delayed| ==> q.delayed[j].readyAt > now
  {
    hide Owes, Ordered, Finish;
    PopPending(p);
    FinishLaw(p.(pending := p.pending[1..]), p.pending[0].req, now, multiset{});
    FinishOrdered(p.(pending := p.pending[1..]), p.pending[0].req, now);
  }

  // ---- Delays ----

  /** How many at the front of the queue are due. */
  function Due(ds: seq<Delayed>, now: int): (k: nat)
    ensures k <= |ds|
  {
    if ds == [] || ds[0].readyAt > now then 0 else 1 + Due(ds[1..], now)
  }

  /** One is among them exactly when it and all those ahead of it are ready. */
  lemma {:induction false} DueExactly(ds: seq<Delayed>, now: int, i: nat)
    requires i < |ds|
    ensures i < Due(ds, now) <==> forall j :: 0 <= j <= i ==> ds[j].readyAt <= now
  {
    if ds[0].readyAt <= now && i > 0 {
      DueExactly(ds[1..], now, i - 1);
      assert (forall j :: 0 <= j <= i - 1 ==> ds[1..][j].readyAt <= now) ==>
             forall j :: 0 <= j <= i ==> ds[j].readyAt <= now by {
        assert forall j :: 1 <= j <= i ==> ds[j] == ds[1..][j - 1];
      }
    }
  }

  lemma {:induction false} DueBeforeOthers(ds: seq<Delayed>, es: seq<Delayed>, now: int)
    requires forall j :: 0 <= j < |es| ==> es[j].readyAt > now
    ensures Due(ds + es, now) == Due(ds, now)
  {
    if ds == [] {
      assert ds + es == es;
    } else {
      assert (ds + es)[1..] == ds[1..] + es;
      DueBeforeOthers(ds[1..], es, now);
    }
  }

  /** From ds to es: those due left, the others stay in their order, and what is new is not due. */
  predicate TakesDue(ds: seq<Delayed>, es: seq<Delayed>, now: int) {
    var k := Due(ds, now);
    ds[k..] <= es && forall j :: |ds| - k <= j < |es| ==> es[j].readyAt > now
  }

  predicate Grows(p: Pump, q: Pump) {
    p.asked <= q.asked && p.done <= q.done
  }

  lemma TakesDueAfterOne(ds: seq<Delayed>, es: seq<Delayed>, fs: seq<Delayed>, now: int)
    requires ds != [] && ds[0].readyAt <= now && ds[1..] <= es && TakesDue(es, fs, now)
    requires forall j :: |ds| - 1 <= j < |es| ==> es[j].readyAt > now
    ensures TakesDue(ds, fs, now)
  {
    var later := es[|ds| - 1..];
    assert es == ds[1..] + later;
    DueBeforeOthers(ds[1..], later, now);
    var k := Due(ds[1..], now);
    assert ds[1 + k..] == ds[1..][k..] == es[k..][..|ds| - 1 - k];
    assert forall j :: |ds| - 1 - k <= j < |es| - k ==> fs[j] == es[k..][j] == es[j + k];
  }

  lemma {:induction false} PromoteLaw(p: Pump, now: int)
    requires Valid(p)
    ensures var q := Promote(p, now);
            && Valid(q) && TakesDue(p.delayed, q.delayed, now) && !IsDue(q, now)
            && q.ready == p.ready && q.active == p.active && p.pending <= q.pending && Grows(p, q)
    decreases Queued(p), |p.delayed|
  {
    if IsDue(p, now) {
      hide Valid, PromoteOne, TakesDue, Queued, Due;
      var q := PromoteOne(p, now);
      PromoteOneLaw(p, now);
      PromoteOneSize(p, now);
      PromoteLaw(q, now);
      TakesDueAfterOne(p.delayed, q.delayed, Promote(q, now).delayed, now);
    }
  }

  lemma {:induction false} AttachLaw(p: Pump, now: int)
    requires Valid(p)
    ensures var q := Attach(p, now);
            && Valid(q) && q.pending == [] && q.ready == p.ready && p.delayed <= q.delayed && Grows(p, q)
            && forall j :: |p.delayed| <= j < |q.delayed| ==> q.delayed[j].readyAt > now
    decreases Queued(p)
  {
    if p.pending != [] {
      AttachOneLaw(p, now);
      AttachOneSize(p, now);
      AttachLaw(AttachOne(p, now), now);
    }
  }

  lemma AdmitLaw(p: Pump, now: int)
    requires Valid(p)
    ensures var q := Admit(p, now);
            Valid(q) && q.pending == [] && q.ready == p.ready && TakesDue(p.delayed, q.delayed, now) && Grows(p, q)
  {
    hide Valid, Promote, Attach;
    PromoteLaw(p, now);
    AttachLaw(Promote(p, now), now);
  }

  // ---- Handles leaving: completion, stalls, errors ----

  lemma {:induction false} WithoutAt(hs: seq<Handle>, i: nat)
    requires i < |hs| && forall j :: 0 <= j < i ==> hs[j].number != hs[i].number
    ensures Without(hs, hs[i].number) == hs[..i] + hs[i + 1..] && Holds(hs, hs[i].number)
  {
    if i > 0 {
      WithoutAt(hs[1..], i - 1);
      assert hs[..i] + hs[i + 1..] == [hs[0]] + (hs[1..][..i - 1] + hs[1..][i..]);
    }
  }

  /** An attached handle taken out is owed. */
  lemma PopActive(p: Pump, i: nat)
    requires Valid(p) && i < |p.active|
    ensures var q := p.(active := p.active[..i] + p.active[i + 1..]);
            && Without(p.active, p.active[i].number) == q.active && Holds(p.active, p.active[i].number)
            && Owes(q, multiset{} + multiset{p.active[i].req}) && Ordered(q)
  {
    var a, h, q := p.active, p.active[i], p.(active := p.active[..i] + p.active[i + 1..]);
    assert forall j :: 0 <= j < |a| ==> (a + p.pending)[j] == a[j];
    WithoutAt(a, i);
    hide Ordered;
    assert a == a[..i] + [h] + a[i + 1..] && Requests([h]) == [h.req];
    RequestsAppend(a[..i] + [h], a[i + 1..]);
    RequestsAppend(a[..i], [h]);
    RequestsAppend(a[..i], a[i + 1..]);
    var hs := a + p.pending;
    assert q.active + q.pending == hs[..i] + hs[i + 1..];
    OrderedWithout(p, i, q);
  }

  lemma CompleteLaw(p: Pump, i: nat, now: int)
    requires Valid(p) && i < |p.active|
    ensures var q := Complete(p, p.active[i], now);
            && Valid(q) && q.active == p.active[..i] + p.active[i + 1..] && p.done + [p.active[i].req] <= q.done
            && q.ready == p.ready && p.asked <= q.asked && p.delayed <= q.delayed
  {
    hide Owes, Ordered, Finish, Without;
    PopActive(p, i);
    var q := p.(active := p.active[..i] + p.active[i + 1..]);
    FinishLaw(q, p.active[i].req, now, multiset{});
    FinishOrdered(q, p.active[i].req, now);
  }

  function NotStalled(hs: seq<Handle>, now: int): seq<Handle> {
    if hs == [] then []
    else if IsStalled(hs[0], now) then NotStalled(hs[1..], now)
    else [hs[0]] + NotStalled(hs[1..], now)
  }

  /** The stalled ones among the handles after those of kept are aborted, one after the other. */
  lemma {:induction false} AbortAllLaw(p: Pump, kept: seq<Handle>, hs: seq<Handle>, now: int)
    requires Valid(p) && p.active == kept + hs
    ensures var q := AbortAll(p, Stalled(hs, now), now);
            && Valid(q) && q.active == kept + NotStalled(hs, now) && q.ready == p.ready
            && p.delayed <= q.delayed && Grows(p, q)
    decreases |hs|
  {
    hide Valid, Abort, IsStalled;
    if hs == [] {
      assert kept + hs == kept == kept + NotStalled(hs, now);
    } else if IsStalled(hs[0], now) {
      AbortLaw(p, kept, hs, now);
      AbortAllLaw(Abort(p, hs[0], now), kept, hs[1..], now);
    } else {
      assert kept + hs == (kept + [hs[0]]) + hs[1..];
      AbortAllLaw(p, kept + [hs[0]], hs[1..], now);
      assert kept + NotStalled(hs, now) == (kept + [hs[0]]) + NotStalled(hs[1..], now);
    }
  }

  lemma AbortLaw(p: Pump, kept: seq<Handle>, hs: seq<Handle>, now: int)
    requires Valid(p) && hs != [] && p.active == kept + hs
    ensures var q := Abort(p, hs[0], now);
            Valid(q) && q.active == kept + hs[1..] && q.ready == p.ready && p.delayed <= q.delayed && Grows(p, q)
  {
    hide Valid, Complete, Abort;
    var i := |kept|;
    assert p.active[i] == hs[0] && p.active[..i] + p.active[i + 1..] == kept + hs[1..];
    CompleteLaw(p, i, now);
    AbortIsComplete(p, i, now);
  }

  lemma AbortIsComplete(p: Pump, i: nat, now: int)
    requires Valid(p) && i < |p.active|
    ensures Abort(p, p.active[i], now) == Complete(p, p.active[i], now)
  {
    PopActive(p, i);
    hide Valid, Finish, Without;
  }

  /** Exactly the stalled handles leave. */
  lemma WatchLaw(p: Pump, now: int)
    requires Valid(p)
    ensures var q := Watch(p, now);
            && Valid(q) && q.active == NotStalled(p.active, now) && q.ready == p.ready
            && p.delayed <= q.delayed && Grows(p, q)
  {
    hide Valid;
    assert p.active == [] + p.active;
    AbortAllLaw(p, [], p.active, now);
  }

  lemma RecoverLaw(p: Pump, renewed: bool, now: int)
    requires Valid(p)
    ensures var q := Recover(p, renewed, now);
            && Valid(q) && q.active == [] && q.ready == renewed && p.delayed <= q.delayed && Grows(p, q)
  {
    var q := p.(active := [], ready := renewed);
    assert Ordered(q) by {
      assert forall i :: 0 <= i < |p.pending| ==> (p.active + p.pending)[|p.active| + i] == p.pending[i];
    }
    assert Owes(q, multiset{} + multiset(Requests(p.active)));
    hide Owes, Ordered;
    FinishAllLaw(q, Requests(p.active), now, multiset{});
    FinishAllOrdered(q, Requests(p.active), now);
  }

  // ---- Shutdown ----

  lemma StopLaw(p: Pump, now: int)
    requires Valid(p)
    ensures var q := Stop(p, now); Valid(q) && q.active == p.active && !q.ready && Grows(p, q)
  {
    var q := p.(pending := [], delayed := []);
    assert Ordered(q) by {
      assert forall i :: 0 <= i < |p.active| ==> (p.active + p.pending)[i] == p.active[i];
    }
    var later := multiset(DelayedRequests(p.delayed));
    assert Owes(q, later + multiset(Requests(p.pending)));
    hide Owes, Ordered;
    FinishAllLaw(q, Requests(p.pending), now, later);
    FinishAllOrdered(q, Requests(p.pending), now);
    var r := FinishAll(q, Requests(p.pending), now);
    assert later == multiset{} + later;
    FinishAllLaw(r, DelayedRequests(p.delayed), now, multiset{});
    FinishAllOrdered(r, DelayedRequests(p.delayed), now);
    StoppedStaysValid(FinishAll(r, DelayedRequests(p.delayed), now));
  }

  lemma StoppedStaysValid(p: Pump)
    requires Valid(p)
    ensures Valid(p.(ready := false))
  {
  }

  /** A callback that queues nothing: its requests fail at once, and so do those of their callbacks. */
  predicate Quiet(r: Request)
    decreases r, 0
  {
    NoneQueues(r.followUps)
  }

  predicate NoneQueues(rs: seq<Request>)
    decreases rs
  {
    rs == [] || (QueuesNothing(rs[0]) && NoneQueues(rs[1..]))
  }

  predicate QueuesNothing(r: Request)
    decreases r, 1
  {
    r.delayMs <= 0 && !r.builds && Quiet(r)
  }

  /** Nothing new in the queues. */
  predicate SameQueues(p: Pump, q: Pump) {
    q.delayed == p.delayed && q.pending == p.pending
  }

  lemma {:induction false} AddQuiet(p: Pump, r: Request, now: int, owed: multiset<Request>)
    requires Owes(p, owed)
    ensures SameQueues(p, Add(p, r, now)) <==> !p.ready || QueuesNothing(r)
    decreases r, 2
  {
    var q := p.(asked := p.asked + [r]);
    assert Owes(q, owed + multiset{r});
    if !p.ready || (r.delayMs <= 0 && !r.builds) {
      FinishQuiet(q, r, now, owed);
    }
  }

  lemma {:induction false} FinishQuiet(p: Pump, r: Request, now: int, owed: multiset<Request>)
    requires Owes(p, owed + multiset{r})
    ensures SameQueues(p, Finish(p, r, now)) <==> !p.ready || Quiet(r)
    decreases r, 0
  {
    var q := p.(done := p.done + [r]);
    assert Owes(q, owed);
    AddAllQuiet(q, r.followUps, now, owed);
  }

  lemma {:induction false} AddAllQuiet(p: Pump, rs: seq<Request>, now: int, owed: multiset<Request>)
    requires Owes(p, owed)
    ensures SameQueues(p, AddAll(p, rs, now)) <==> !p.ready || NoneQueues(rs)
    decreases rs
  {
    if rs == [] {
    } else {
      hide Owes, Extends, SameQueues, Add, QueuesNothing;
      var q := Add(p, rs[0], now);
      AddQuiet(p, rs[0], now, owed);
      AddLaw(p, rs[0], now, owed);
      AddAllLaw(q, rs[1..], now, owed);
      AddAllQuiet(q, rs[1..], now, owed);
      SameTwice(p, q, AddAll(p, rs, now), now);
    }
  }

  /** What only grows is the same at the end exactly when it is in between. */
  lemma SameTwice(p: Pump, q: Pump, r: Pump, now: int)
    requires Extends(p, q, now) && Extends(q, r, now)
    ensures SameQueues(p, r) <==> SameQueues(p, q) && SameQueues(q, r)
  {
  }

  predicate AllQuiet(rs: seq<Request>) {
    rs == [] || (Quiet(rs[0]) && AllQuiet(rs[1..]))
  }

  lemma {:induction false} FinishAllQuiet(p: Pump, rs: seq<Request>, now: int, owed: multiset<Request>)
    requires Owes(p, owed + multiset(rs))
    ensures SameQueues(p, FinishAll(p, rs, now)) <==> !p.ready || AllQuiet(rs)
    decreases |rs|
  {
    if rs == [] {
    } else {
      hide Owes, Extends, SameQueues, Finish, Quiet;
      var q := Finish(p, rs[0], now);
      FirstOwed(owed, rs);
      FinishQuiet(p, rs[0], now, owed + multiset(rs[1..]));
      FinishLaw(p, rs[0], now, owed + multiset(rs[1..]));
      FinishAllLaw(q, rs[1..], now, owed);
      FinishAllQuiet(q, rs[1..], now, owed);
      SameTwice(p, q, FinishAll(p, rs, now), now);
    }
  }

  /** After a shutdown the requests without a callback are those active at the time, and no others, exactly when no
      callback of a queued request queues a request of its own: the poller still counts as ready while they run. */
  lemma StopExactly(p: Pump, now: int)
    requires Valid(p)
    ensures InFlight(Stop(p, now)) == multiset(Requests(p.active)) <==>
            !p.ready || (AllQuiet(Requests(p.pending)) && AllQuiet(DelayedRequests(p.delayed)))
  {
    var q := p.(pending := [], delayed := []);
    var later := multiset(DelayedRequests(p.delayed));
    assert Owes(q, later + multiset(Requests(p.pending)));
    FinishAllLaw(q, Requests(p.pending), now, later);
    FinishAllQuiet(q, Requests(p.pending), now, later);
    var r := FinishAll(q, Requests(p.pending), now);
    assert later == multiset{} + later;
    FinishAllLaw(r, DelayedRequests(p.delayed), now, multiset{});
    FinishAllQuiet(r, DelayedRequests(p.delayed), now, multiset{});
    var s := FinishAll(r, DelayedRequests(p.delayed), now);
    SameTwice(q, r, s, now);
    StopLaw(p, now);
    hide Owes, Ordered, AllQuiet, FinishAll;
    EmptyQueues(Stop(p, now));
  }

  /** The other case at an input: the callback of a queued request asks for a request that can be made. After a
      shutdown that one is pending in a poller that is gone, and its callback is never called. */
  lemma ShutdownDropsFollowUp(now: int)
    ensures var later := Request(Others, 1, 0, 0, false, true, true, []);
            var first := Request(Others, 0, 0, 0, false, true, true, [later]);
            var p := Add(START, first, now);
            var q := Stop(p, now);
            && p.active == [] && Requests(p.pending) == [first]
            && q.asked == [first, later] && q.done == [first] && Requests(q.pending) == [later] && !q.ready
            && InFlight(q) != multiset(Requests(p.active))
  {
    var later := Request(Others, 1, 0, 0, false, true, true, []);
    var first := Request(Others, 0, 0, 0, false, true, true, [later]);
    var h, g := Handle(0, first, now), Handle(1, later, now);
    var p := Add(START, first, now);
    AddBuilt(START, first, now);
    assert p.asked == [first] && p.pending == [h];
    assert Requests([h]) == [first] && Requests([g]) == [later];
    FinishOne(p.(pending := []), first, later, now);
    var q := Pump(true, [], [g], [], 2, [first, later], [first]);
    AddBuilt(p.(pending := [], done := [first]), later, now);
    assert FinishAll(p.(pending := []), [first], now) == q by {
      assert [first][1..] == [];
    }
    assert DelayedRequests([]) == [];
    assert Stop(p, now) == q.(ready := false);
    assert multiset([later])[later] == 1 && multiset(Requests([])) == multiset{};
  }

  lemma AddBuilt(p: Pump, r: Request, now: int)
    requires p.ready && r.delayMs <= 0 && r.builds
    ensures Add(p, r, now) ==
            p.(asked := p.asked + [r], pending := p.pending + [Handle(p.next, r, now)], next := p.next + 1)
  {
  }

  lemma FinishOne(p: Pump, r: Request, more: Request, now: int)
    requires r.followUps == [more]
    ensures Finish(p, r, now) == Add(p.(done := p.done + [r]), more, now)
  {
    assert r.followUps[0] == more && r.followUps[1..] == [];
    var q := p.(done := p.done + [r]);
    assert AddAll(q, r.followUps, now) == AddAll(Add(q, more, now), [], now);
  }

  /** Nothing is in flight but what is active exactly when both queues are empty. */
  lemma EmptyQueues(p: Pump)
    ensures InFlight(p) == multiset(Requests(p.active)) <==> p.delayed == [] && p.pending == []
  {
    var a, b := DelayedRequests(p.delayed), Requests(p.pending);
    assert |InFlight(p)| == |a| + |b| + |p.active|;
  }

  // ---- Runs ----

  /** What can happen to the pump, in any order. A message names an attached handle by its place. */
  datatype Event =
    | Ask(r: Request, now: int)
    | AdmitAt(now: int)
    | RecoverAt(renewed: bool, now: int)
    | WatchAt(now: int)
    | Message(i: nat, now: int)
    | Bytes(i: nat, now: int)
    | StopAt(now: int)

  predicate Possible(p: Pump, e: Event) {
    (e.Message? || e.Bytes?) ==> e.i < |p.active|
  }

  function Step(p: Pump, e: Event): Pump
    requires Possible(p, e)
  {
    match e
    case Ask(r, now) => Add(p, r, now)
    case AdmitAt(now) => Admit(p, now)
    case RecoverAt(renewed, now) => Recover(p, renewed, now)
    case WatchAt(now) => Watch(p, now)
    case Message(i, now) => Complete(p, p.active[i], now)
    case Bytes(i, now) => Progress(p, i, now)
    case StopAt(now) => Stop(p, now)
  }

  lemma ProgressLaw(p: Pump, i: nat, now: int)
    requires Valid(p) && i < |p.active|
    ensures var q := Progress(p, i, now);
            Valid(q) && Requests(q.active) == Requests(p.active) && q.delayed == p.delayed && q.ready == p.ready
            && Grows(p, q)
  {
    var q := Progress(p, i, now);
    var hs, gs := p.active + p.pending, q.active + q.pending;
    assert Requests(q.active) == Requests(p.active);
    assert forall j :: 0 <= j < |hs| ==> gs[j].number == hs[j].number;
  }

  /** Every step keeps the invariant, and what was asked for or done stays so. */
  lemma StepLaw(p: Pump, e: Event)
    requires Valid(p) && Possible(p, e)
    ensures Valid(Step(p, e)) && Grows(p, Step(p, e))
    ensures !e.AdmitAt? && !e.StopAt? ==> p.delayed <= Step(p, e).delayed
    ensures e.AdmitAt? ==> TakesDue(p.delayed, Step(p, e).delayed, e.now)
  {
    hide Owes, Ordered, Add, Admit, Recover, Watch, Complete, Progress, Stop, TakesDue;
    match e
    case Ask(r, now) =>
      AddLaw(p, r, now, multiset{});
      AddOrdered(p, r, now);
    case AdmitAt(now) => AdmitLaw(p, now);
    case RecoverAt(renewed, now) => RecoverLaw(p, renewed, now);
    case WatchAt(now) => WatchLaw(p, now);
    case Message(i, now) => CompleteLaw(p, i, now);
    case Bytes(i, now) => ProgressLaw(p, i, now);
    case StopAt(now) => StopLaw(p, now);
  }

  predicate AllPossible(p: Pump, es: seq<Event>)
    decreases |es|
  {
    es == [] || (Possible(p, es[0]) && AllPossible(Step(p, es[0]), es[1..]))
  }

  function Run(p: Pump, es: seq<Event>): Pump
    requires AllPossible(p, es)
    decreases |es|
  {
    if es == [] then p else Run(Step(p, es[0]), es[1..])
  }

  /** Over every run from a valid state: the invariant holds at the end, and no callback is taken back. */
  lemma {:induction false} RunLaw(p: Pump, es: seq<Event>)
    requires Valid(p) && AllPossible(p, es)
    ensures Valid(Run(p, es)) && Grows(p, Run(p, es))
    decreases |es|
  {
    hide Valid, Step, Possible;
    if es != [] {
      StepLaw(p, es[0]);
      RunLaw(Step(p, es[0]), es[1..]);
    }
  }

  /** A request asked for once is in exactly one of the four places, at the end of every run from the start. */
  lemma ExactlyOnePlace(es: seq<Event>, r: Request)
    requires AllPossible(START, es) && multiset(Run(START, es).asked)[r] == 1
    ensures var p := Run(START, es);
            var places := [multiset(DelayedRequests(p.delayed))[r], multiset(Requests(p.pending))[r],
                           multiset(Requests(p.active))[r], multiset(p.done)[r]];
            && places[0] + places[1] + places[2] + places[3] == 1
            && (r in p.done <==> places[0] == places[1] == places[2] == 0)
  {
    assert Valid(START);
    RunLaw(START, es);
    var p := Run(START, es);
    assert multiset(p.asked)[r] == InFlight(p)[r] + multiset(p.done)[r];
  }

  lemma {:induction false} HoldsAt(hs: seq<Handle>, number: nat) returns (i: nat)
    requires Holds(hs, number)
    ensures i < |hs| && hs[i] == At(hs, number) && At(hs, number).number == number
  {
    if hs[0].number == number {
      i := 0;
    } else {
      assert Holds(hs[1..], number) by {
        var j :| 0 <= j < |hs| && hs[j].number == number;
        assert hs[1..][j - 1].number == number;
      }
      i := HoldsAt(hs[1..], number);
      i := i + 1;
    }
  }

  /** A round of the pump is a run: admission, then either recovery or the watchdog and a message for each handle
      that is still attached. */
  lemma {:induction false} MessagesAreRun(p: Pump, messages: seq<nat>, now: int) returns (es: seq<Event>)
    requires Valid(p)
    ensures AllPossible(p, es) && Run(p, es) == CompleteAll(p, messages, now) && forall e :: e in es ==> e.Message?
    decreases |messages|
  {
    hide Valid, Complete;
    if messages == [] {
      es := [];
    } else if Holds(p.active, messages[0]) {
      var i := HoldsAt(p.active, messages[0]);
      CompleteLaw(p, i, now);
      var rest := MessagesAreRun(Complete(p, p.active[i], now), messages[1..], now);
      RunCons(p, Message(i, now), rest);
      es := [Message(i, now)] + rest;
    } else {
      es := MessagesAreRun(p, messages[1..], now);
    }
  }

  lemma IterationIsRun(p: Pump, now: int, polled: bool, performed: bool, renewed: bool, messages: seq<nat>)
    returns (es: seq<Event>)
    requires Valid(p)
    ensures AllPossible(p, es) && Run(p, es) == Iteration(p, now, polled, performed, renewed, messages)
    ensures |es| >= 2 && es[0] == AdmitAt(now) && forall e :: e in es[1..] ==> e.RecoverAt? || e.WatchAt? || e.Message?
  {
    hide Valid, Admit, Watch, Recover, Complete;
    var q := Admit(p, now);
    AdmitLaw(p, now);
    var rest: seq<Event> := [];
    if q.ready && polled && performed {
      WatchLaw(q, now);
      rest := MessagesAreRun(Watch(q, now), messages, now);
      RunCons(q, WatchAt(now), rest);
      rest := [WatchAt(now)] + rest;
    } else {
      RunCons(q, RecoverAt(renewed, now), []);
      rest := [RecoverAt(renewed, now)] + [];
    }
    RunCons(p, AdmitAt(now), rest);
    es := [AdmitAt(now)] + rest;
  }

  lemma RunCons(p: Pump, e: Event, es: seq<Event>)
    requires Possible(p, e) && AllPossible(Step(p, e), es)
    ensures AllPossible(p, [e] + es) && Run(p, [e] + es) == Run(Step(p, e), es)
  {
    assert ([e] + es)[1..] == es;
  }

  // ---- Delays over runs ----

  predicate Running(es: seq<Event>, since: int) {
    es == [] || (!es[0].StopAt? && since <= es[0].now && Running(es[1..], es[0].now))
  }

  /** The time of the last admission, or before. */
  function LastAdmission(es: seq<Event>, before: int): int {
    if es == [] then before else LastAdmission(es[1..], if es[0].AdmitAt? then es[0].now else before)
  }

  lemma {:induction false} LastAdmissionLater(es: seq<Event>, before: int, since: int)
    requires Running(es, since) && before <= since
    ensures before <= LastAdmission(es, before)
  {
    if es != [] {
      LastAdmissionLater(es[1..], if es[0].AdmitAt? then es[0].now else before, es[0].now);
    }
  }

  lemma {:induction false} DueLater(ds: seq<Delayed>, t: int, u: int)
    requires t <= u
    ensures Due(ds, t) <= Due(ds, u) && Due(ds, u) == Due(ds, t) + Due(ds[Due(ds, t)..], u)
  {
    if ds != [] && ds[0].readyAt <= t {
      DueLater(ds[1..], t, u);
      assert ds[Due(ds, t)..] == ds[1..][Due(ds[1..], t)..];
    } else {
      assert ds[0..] == ds;
    }
  }

  lemma {:induction false} DueOfLonger(ds: seq<Delayed>, more: seq<Delayed>, t: int)
    ensures Due(ds, t) <= Due(ds + more, t) && (Due(ds + more, t) < |ds| ==> Due(ds, t) == Due(ds + more, t))
    ensures Due(ds, t) < |ds| ==> Due(ds, t) == Due(ds + more, t)
  {
    if ds != [] {
      assert (ds + more)[1..] == ds[1..] + more;
      DueOfLonger(ds[1..], more, t);
    }
  }

  /** Of the requests that wait in the queue at some time, exactly the first ones that are ready at the last admission,
      all of them together with those ahead, have left by the end of a run; the others wait in the same order. A later
      admission finds the rest as if it had been the first. */
  lemma {:induction false} DelayedLeaveInOrder(p: Pump, es: seq<Event>, admitted: int, since: int, ds: seq<Delayed>)
    requires Valid(p) && AllPossible(p, es) && Running(es, since) && admitted <= since
    requires ds[Due(ds, admitted)..] <= p.delayed
    ensures ds[Due(ds, LastAdmission(es, admitted))..] <= Run(p, es).delayed
    decreases |es|
  {
    hide Valid, Step, Possible, TakesDue;
    if es != [] {
      var e := es[0];
      StepLaw(p, e);
      if e.AdmitAt? {
        AdmissionTakes(ds, admitted, p.delayed, Step(p, e).delayed, e.now);
        DelayedLeaveInOrder(Step(p, e), es[1..], e.now, e.now, ds);
      } else {
        DelayedLeaveInOrder(Step(p, e), es[1..], admitted, e.now, ds);
      }
    }
  }

  lemma AdmissionTakes(ds: seq<Delayed>, t: int, queue: seq<Delayed>, after: seq<Delayed>, u: int)
    requires t <= u && ds[Due(ds, t)..] <= queue && TakesDue(queue, after, u)
    ensures ds[Due(ds, u)..] <= after
  {
    var rest := ds[Due(ds, t)..];
    var more := queue[|rest|..];
    DueLater(ds, t, u);
    hide Due;
    assert queue == rest + more;
    DueOfLonger(rest, more, u);
    var k := Due(rest, u);
    assert ds[Due(ds, u)..] == rest[k..];
    if k < |rest| {
      assert rest[k..] <= queue[k..];
    }
  }
}
