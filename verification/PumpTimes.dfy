/** Times in the pump, over runs: which requests the watchdog ends. */
module PumpTimes {
  import opened PumpSpec
  import opened PumpLaws

  // ---- Handles keep the time of their last activity ----

  function Handles(p: Pump): seq<Handle> {
    p.active + p.pending
  }

  /** Each handle of q is one of p, or was made at that time. */
  predicate From(p: Pump, q: Pump, now: int) {
    && p.next <= q.next
    && forall i :: 0 <= i < |Handles(q)| ==>
         var h := Handles(q)[i];
         h in Handles(p) || (p.next <= h.number < q.next && h.lastActive == now)
  }

  lemma FromTwice(p: Pump, q: Pump, r: Pump, now: int)
    requires From(p, q, now) && From(q, r, now)
    ensures From(p, r, now)
  {
    forall i | 0 <= i < |Handles(r)|
      ensures var h := Handles(r)[i]; h in Handles(p) || (p.next <= h.number < r.next && h.lastActive == now)
    {
      var h := Handles(r)[i];
      if h in Handles(q) {
        var j :| 0 <= j < |Handles(q)| && Handles(q)[j] == h;
        assert Handles(q)[j] in Handles(p) || (p.next <= h.number < q.next && h.lastActive == now);
      }
    }
  }

  lemma FewerHandles(p: Pump, q: Pump, now: int)
    requires q.next == p.next && forall i :: 0 <= i < |Handles(q)| ==> Handles(q)[i] in Handles(p)
    ensures From(p, q, now)
  {
  }

  lemma SameHandles(p: Pump, q: Pump, now: int)
    requires q.next == p.next && Handles(q) == Handles(p)
    ensures From(p, q, now)
  {
  }

  lemma {:induction false} AddFrom(p: Pump, r: Request, now: int)
    ensures From(p, Add(p, r, now), now)
    decreases r, 2
  {
    var q := p.(asked := p.asked + [r]);
    SameHandles(p, q, now);
    hide From;
    if !p.ready {
      FinishFrom(q, r, now);
    } else if r.delayMs > 0 {
      SameHandles(q, Add(p, r, now), now);
    } else {
      EnqueueFrom(q, r, now);
    }
    FromTwice(p, q, Add(p, r, now), now);
  }

  lemma {:induction false} EnqueueFrom(p: Pump, r: Request, now: int)
    ensures From(p, Enqueue(p, r, now), now)
    decreases r, 1
  {
    if r.builds {
      assert Handles(Enqueue(p, r, now)) == Handles(p) + [Handle(p.next, r, now)];
    } else {
      FinishFrom(p, r, now);
    }
  }

  lemma {:induction false} FinishFrom(p: Pump, r: Request, now: int)
    ensures From(p, Finish(p, r, now), now)
    decreases r, 0
  {
    var q := p.(done := p.done + [r]);
    SameHandles(p, q, now);
    AddAllFrom(q, r.followUps, now);
    hide From;
    FromTwice(p, q, Finish(p, r, now), now);
  }

  lemma {:induction false} AddAllFrom(p: Pump, rs: seq<Request>, now: int)
    ensures From(p, AddAll(p, rs, now), now)
    decreases rs
  {
    if rs == [] {
      SameHandles(p, p, now);
    } else {
      hide From, Add;
      AddFrom(p, rs[0], now);
      AddAllFrom(Add(p, rs[0], now), rs[1..], now);
      FromTwice(p, Add(p, rs[0], now), AddAll(p, rs, now), now);
    }
  }

  lemma {:induction false} FinishAllFrom(p: Pump, rs: seq<Request>, now: int)
    ensures From(p, FinishAll(p, rs, now), now)
    decreases |rs|
  {
    if rs == [] {
      SameHandles(p, p, now);
    } else {
      hide From, Finish;
      FinishFrom(p, rs[0], now);
      FinishAllFrom(Finish(p, rs[0], now), rs[1..], now);
      FromTwice(p, Finish(p, rs[0], now), FinishAll(p, rs, now), now);
    }
  }

  lemma {:induction false} PromoteFrom(p: Pump, now: int)
    ensures From(p, Promote(p, now), now)
    decreases Queued(p), |p.delayed|
  {
    if !IsDue(p, now) {
      SameHandles(p, p, now);
    } else {
      var q := p.(delayed := p.delayed[1..]);
      SameHandles(p, q, now);
      hide From, Enqueue, Queued;
      EnqueueFrom(q, p.delayed[0].req, now);
      FromTwice(p, q, PromoteOne(p, now), now);
      PromoteOneSize(p, now);
      PromoteFrom(PromoteOne(p, now), now);
      FromTwice(p, PromoteOne(p, now), Promote(p, now), now);
    }
  }

  lemma AttachOneFrom(p: Pump, now: int)
    requires p.pending != []
    ensures From(p, AttachOne(p, now), now)
  {
    var h, q := p.pending[0], p.(pending := p.pending[1..]);
    FewerHandles(p, q, now);
    if p.ready && h.req.attaches {
      FewerHandles(p, AttachOne(p, now), now);
    } else {
      FinishFrom(q, h.req, now);
      hide From, Finish;
      FromTwice(p, q, AttachOne(p, now), now);
    }
  }

  lemma {:induction false} AttachFrom(p: Pump, now: int)
    ensures From(p, Attach(p, now), now)
    decreases Queued(p)
  {
    if p.pending == [] {
      SameHandles(p, p, now);
    } else {
      hide From, AttachOne, Queued;
      AttachOneFrom(p, now);
      AttachOneSize(p, now);
      AttachFrom(AttachOne(p, now), now);
      FromTwice(p, AttachOne(p, now), Attach(p, now), now);
    }
  }

  lemma {:induction false} WithoutIsPart(hs: seq<Handle>, number: nat)
    ensures forall i :: 0 <= i < |Without(hs, number)| ==> Without(hs, number)[i] in hs
  {
    if hs != [] && hs[0].number != number {
      WithoutIsPart(hs[1..], number);
    }
  }

  lemma EndFrom(p: Pump, h: Handle, now: int)
    ensures From(p, Finish(p.(active := Without(p.active, h.number)), h.req, now), now)
  {
    var q := p.(active := Without(p.active, h.number));
    WithoutIsPart(p.active, h.number);
    FewerHandles(p, q, now);
    FinishFrom(q, h.req, now);
    hide From, Finish, Without;
    FromTwice(p, q, Finish(q, h.req, now), now);
  }

  lemma {:induction false} AbortAllFrom(p: Pump, hs: seq<Handle>, now: int)
    ensures From(p, AbortAll(p, hs, now), now)
    decreases |hs|
  {
    if hs == [] {
      SameHandles(p, p, now);
    } else {
      SameHandles(p, p, now);
      EndFrom(p, hs[0], now);
      hide From, Finish, Without, Holds;
      AbortAllFrom(Abort(p, hs[0], now), hs[1..], now);
      FromTwice(p, Abort(p, hs[0], now), AbortAll(p, hs, now), now);
    }
  }

  lemma StopFrom(p: Pump, now: int)
    ensures From(p, Stop(p, now), now)
  {
    var q := p.(pending := [], delayed := []);
    FewerHandles(p, q, now);
    var r := FinishAll(q, Requests(p.pending), now);
    FinishAllFrom(q, Requests(p.pending), now);
    FinishAllFrom(r, DelayedRequests(p.delayed), now);
    var s := FinishAll(r, DelayedRequests(p.delayed), now);
    SameHandles(s, s.(ready := false), now);
    hide From, FinishAll;
    FromTwice(p, q, r, now);
    FromTwice(p, r, s, now);
    FromTwice(p, s, s.(ready := false), now);
  }

  /** Every step but the arrival of bytes keeps the handles it keeps as they are, and gives new ones its own time. */
  lemma StepFrom(p: Pump, e: Event)
    requires Possible(p, e) && !e.Bytes?
    ensures From(p, Step(p, e), e.now)
  {
    hide From, Add, Promote, Attach, FinishAll, AbortAll, Finish, Stop;
    match e
    case Ask(r, now) => AddFrom(p, r, now);
    case AdmitAt(now) =>
      PromoteFrom(p, now);
      AttachFrom(Promote(p, now), now);
      FromTwice(p, Promote(p, now), Admit(p, now), now);
    case RecoverAt(renewed, now) =>
      var q := p.(active := [], ready := renewed);
      FewerHandles(p, q, now);
      FinishAllFrom(q, Requests(p.active), now);
      FromTwice(p, q, Recover(p, renewed, now), now);
    case WatchAt(now) => AbortAllFrom(p, Stalled(p.active, now), now);
    case Message(i, now) => EndFrom(p, p.active[i], now);
    case StopAt(now) => StopFrom(p, now);
  }

  // ---- The last activity, by the events of a run ----

  /** The event makes handle n, or brings bytes for it that are noted. */
  predicate Notes(p: Pump, e: Event, n: nat)
    requires Possible(p, e)
  {
    || p.next <= n < Step(p, e).next
    || (e.Bytes? && p.active[e.i].number == n && p.active[e.i].req.reportsProgress)
  }

  /** The time of the last event of the run that does, or before. */
  function LastNote(p: Pump, es: seq<Event>, n: nat, before: int): int
    requires AllPossible(p, es)
    decreases |es|
  {
    if es == [] then before
    else LastNote(Step(p, es[0]), es[1..], n, if Notes(p, es[0], n) then es[0].now else before)
  }

  /** The handles have the times that m gives to their numbers. */
  ghost predicate Timely(p: Pump, m: nat -> int) {
    forall i :: 0 <= i < |Handles(p)| ==> Handles(p)[i].lastActive == m(Handles(p)[i].number)
  }

  ghost function AfterEvent(p: Pump, e: Event, m: nat -> int): nat -> int
    requires Possible(p, e)
  {
    (n: nat) => if Notes(p, e, n) then e.now else m(n)
  }

  lemma FromTimely(p: Pump, q: Pump, now: int, m: nat -> int, k: nat -> int)
    requires Ordered(p) && From(p, q, now) && Timely(p, m)
    requires forall n: nat :: k(n) == if p.next <= n < q.next then now else m(n)
    ensures Timely(q, k)
  {
    forall i | 0 <= i < |Handles(q)| ensures Handles(q)[i].lastActive == k(Handles(q)[i].number) {
      var h := Handles(q)[i];
      if h in Handles(p) {
        var j :| 0 <= j < |Handles(p)| && Handles(p)[j] == h;
        assert h.number < p.next;
      }
    }
  }

  lemma BytesTimely(p: Pump, i: nat, now: int, m: nat -> int)
    requires Ordered(p) && i < |p.active| && Timely(p, m)
    ensures Timely(Progress(p, i, now), AfterEvent(p, Bytes(i, now), m))
  {
    var q := Progress(p, i, now);
    var hs := Handles(p);
    assert q.next == p.next;
    forall j | 0 <= j < |Handles(q)|
      ensures Handles(q)[j].lastActive == AfterEvent(p, Bytes(i, now), m)(Handles(q)[j].number)
    {
      assert hs[i] == p.active[i] && hs[j].number < p.next && hs[j].lastActive == m(hs[j].number);
      assert j != i ==> Handles(q)[j] == hs[j] && hs[j].number != hs[i].number;
    }
  }

  lemma StepTimely(p: Pump, e: Event, m: nat -> int)
    requires Valid(p) && Possible(p, e) && Timely(p, m)
    ensures Timely(Step(p, e), AfterEvent(p, e, m))
  {
    hide Timely, Conserved, Ordered;
    if e.Bytes? {
      BytesTimely(p, e.i, e.now, m);
    } else {
      StepFrom(p, e);
      hide Step, From;
      assert forall n: nat :: Notes(p, e, n) <==> p.next <= n < Step(p, e).next;
      FromTimely(p, Step(p, e), e.now, m, AfterEvent(p, e, m));
    }
  }

  lemma {:induction false} RunTimely(p: Pump, es: seq<Event>, m: nat -> int, i: nat)
    requires Valid(p) && AllPossible(p, es) && Timely(p, m) && i < |Handles(Run(p, es))|
    ensures var h := Handles(Run(p, es))[i]; h.lastActive == LastNote(p, es, h.number, m(h.number))
    decreases |es|
  {
    hide Valid, Step, Possible, Notes;
    if es != [] {
      hide Timely;
      StepTimely(p, es[0], m);
      StepLaw(p, es[0]);
      RunTimely(Step(p, es[0]), es[1..], AfterEvent(p, es[0], m), i);
    }
  }

  /** In every reachable state a handle's time is that of the last event that made it or brought bytes for it. */
  lemma LastActiveIsLastNote(es: seq<Event>, i: nat)
    requires AllPossible(START, es) && i < |Run(START, es).active|
    ensures var h := Run(START, es).active[i]; h.lastActive == LastNote(START, es, h.number, 0)
  {
    assert Valid(START) && Timely(START, (n: nat) => 0);
    var p := Run(START, es);
    assert Handles(p)[i] == p.active[i];
    hide Valid, Timely, Run, AllPossible;
    RunTimely(START, es, (n: nat) => 0, i);
  }

  // ---- The watchdog ----

  lemma {:induction false} StalledLeaves(hs: seq<Handle>, now: int, i: nat)
    requires i < |hs| && forall j, k :: 0 <= j < k < |hs| ==> hs[j].number < hs[k].number
    ensures Holds(NotStalled(hs, now), hs[i].number) <==> !IsStalled(hs[i], now)
    decreases |hs|
  {
    hide IsStalled;
    NotStalledIsPart(hs, now);
    var rest := NotStalled(hs, now);
    if IsStalled(hs[i], now) {
      forall j | 0 <= j < |rest| ensures rest[j].number != hs[i].number {
        assert rest[j] in rest;
        var k :| 0 <= k < |hs| && hs[k] == rest[j];
        assert k < i || i < k;
      }
    } else {
      var h := hs[i];
      assert h in hs;
      assert h in rest;
      var j :| 0 <= j < |rest| && rest[j] == h;
      assert rest[j].number == h.number;
    }
  }

  lemma {:induction false} NotStalledIsPart(hs: seq<Handle>, now: int)
    ensures forall h :: h in NotStalled(hs, now) <==> h in hs && !IsStalled(h, now)
  {
    hide IsStalled;
    if hs != [] {
      NotStalledIsPart(hs[1..], now);
      assert forall h :: h in hs <==> h == hs[0] || h in hs[1..];
    }
  }

  lemma {:induction false} AbortsAreDone(p: Pump, kept: seq<Handle>, hs: seq<Handle>, now: int, h: Handle)
    requires Valid(p) && p.active == kept + hs && h in hs && IsStalled(h, now)
    ensures var q := AbortAll(p, Stalled(hs, now), now);
            p.done <= q.done && h.req in q.done[|p.done|..]
    decreases |hs|
  {
    hide Valid, IsStalled, Finish, Without;
    if IsStalled(hs[0], now) {
      var q := Abort(p, hs[0], now);
      AbortLaw(p, kept, hs, now);
      AbortedIsDone(p, kept, hs, now);
      assert Stalled(hs, now)[1..] == Stalled(hs[1..], now);
      AbortAllLaw(q, kept, hs[1..], now);
      if h != hs[0] {
        assert h in hs[1..];
        AbortsAreDone(q, kept, hs[1..], now, h);
      }
      hide Abort;
      LaterDone(p.done, q.done, AbortAll(p, Stalled(hs, now), now).done, h.req);
    } else {
      assert kept + hs == (kept + [hs[0]]) + hs[1..] && h in hs[1..];
      AbortsAreDone(p, kept + [hs[0]], hs[1..], now, h);
    }
  }

  lemma LaterDone(a: seq<Request>, b: seq<Request>, c: seq<Request>, r: Request)
    requires a <= b <= c && (r in b[|a|..] || r in c[|b|..])
    ensures r in c[|a|..]
  {
    assert c[|a|..] == b[|a|..] + c[|b|..];
  }

  lemma AbortedIsDone(p: Pump, kept: seq<Handle>, hs: seq<Handle>, now: int)
    requires Valid(p) && hs != [] && p.active == kept + hs
    ensures var q := Abort(p, hs[0], now); p.done <= q.done && hs[0].req in q.done[|p.done|..]
  {
    hide Valid, Without, Finish;
    var i := |kept|;
    assert p.active[i] == hs[0];
    AbortIsComplete(p, i, now);
    PopActive(p, i);
    FinishLaw(p.(active := Without(p.active, hs[0].number)), hs[0].req, now, multiset{});
    hide Abort;
    var q := Abort(p, hs[0], now);
    assert q.done[|p.done|] == hs[0].req;
  }

  /** A watchdog step at time t, after any run from the start: an active request is ended by it, and its callback
      called, exactly when it has a limit and its last activity is longer ago than that many seconds; all others
      stay. */
  lemma WatchEndsExactly(es: seq<Event>, t: int, i: nat)
    requires AllPossible(START, es) && i < |Run(START, es).active|
    ensures var p := Run(START, es);
            var h, q := p.active[i], Step(p, WatchAt(t));
            && (!Holds(q.active, h.number) <==>
                h.req.stallSec > 0 && LastNote(START, es, h.number, 0) < t - 1000 * h.req.stallSec)
            && p.done <= q.done && (!Holds(q.active, h.number) ==> h.req in q.done[|p.done|..])
  {
    var p := Run(START, es);
    LastActiveIsLastNote(es, i);
    assert Valid(START);
    RunLaw(START, es);
    hide Valid, Run, AllPossible, LastNote;
    WatchEnds(p, t, i);
  }

  lemma WatchLeaves(p: Pump, t: int, i: nat)
    requires Valid(p) && i < |p.active|
    ensures var h := p.active[i];
            !Holds(Watch(p, t).active, h.number) <==> h.req.stallSec > 0 && h.lastActive < t - 1000 * h.req.stallSec
  {
    ActiveAscend(p);
    hide Valid, Holds, NotStalled, Watch;
    WatchLaw(p, t);
    StalledLeaves(p.active, t, i);
  }

  lemma WatchCallsBack(p: Pump, t: int, h: Handle)
    requires Valid(p) && h in p.active && IsStalled(h, t)
    ensures p.done <= Watch(p, t).done && h.req in Watch(p, t).done[|p.done|..]
  {
    assert p.active == [] + p.active;
    hide Valid, IsStalled, Stalled, AbortAll;
    AbortsAreDone(p, [], p.active, t, h);
  }

  lemma WatchEnds(p: Pump, t: int, i: nat)
    requires Valid(p) && i < |p.active|
    ensures var h, q := p.active[i], Step(p, WatchAt(t));
            && (!Holds(q.active, h.number) <==> h.req.stallSec > 0 && h.lastActive < t - 1000 * h.req.stallSec)
            && p.done <= q.done && (!Holds(q.active, h.number) ==> h.req in q.done[|p.done|..])
  {
    hide Valid, Holds, Watch;
    WatchLeaves(p, t, i);
    WatchLaw(p, t);
    if IsStalled(p.active[i], t) {
      WatchCallsBack(p, t, p.active[i]);
    }
  }

  lemma ActiveAscend(p: Pump)
    requires Valid(p)
    ensures forall j, k :: 0 <= j < k < |p.active| ==> p.active[j].number < p.active[k].number
  {
    forall j, k | 0 <= j < k < |p.active| ensures p.active[j].number < p.active[k].number {
      assert Handles(p)[j] == p.active[j] && Handles(p)[k] == p.active[k];
    }
  }

  // ---- The same with a clock that does not run backwards ----

  predicate InTime(es: seq<Event>, since: int) {
    es == [] || (since <= es[0].now && InTime(es[1..], es[0].now))
  }

  /** Some event of the run at or after that time makes handle n, or brings bytes for it. */
  predicate NotedSince(p: Pump, es: seq<Event>, n: nat, since: int)
    requires AllPossible(p, es)
    decreases |es|
  {
    es != [] && ((Notes(p, es[0], n) && es[0].now >= since) || NotedSince(Step(p, es[0]), es[1..], n, since))
  }

  lemma {:induction false} LastNoteIsLatest(p: Pump, es: seq<Event>, n: nat, before: int, since: int, from: int)
    requires AllPossible(p, es) && InTime(es, from) && before <= from
    ensures LastNote(p, es, n, before) >= since <==> before >= since || NotedSince(p, es, n, since)
    decreases |es|
  {
    hide Notes, Step, Possible;
    if es != [] {
      LastNoteIsLatest(Step(p, es[0]), es[1..], n, if Notes(p, es[0], n) then es[0].now else before, since, es[0].now);
    }
  }

  lemma {:induction false} MadeInRun(p: Pump, es: seq<Event>, n: nat, a: int, b: int)
    requires AllPossible(p, es) && p.next <= n < Run(p, es).next
    ensures LastNote(p, es, n, a) == LastNote(p, es, n, b)
    decreases |es|
  {
    hide Step, Possible;
    if es != [] && !Notes(p, es[0], n) {
      MadeInRun(Step(p, es[0]), es[1..], n, a, b);
    }
  }

  /** It ends a request exactly when the request has a limit, and in that many seconds before t neither was its handle
      made nor were bytes noted for it. */
  lemma WatchEndsIdle(es: seq<Event>, t: int, i: nat, from: int)
    requires AllPossible(START, es) && InTime(es, from) && i < |Run(START, es).active|
    ensures var p := Run(START, es);
            var h := p.active[i];
            !Holds(Step(p, WatchAt(t)).active, h.number) <==>
            h.req.stallSec > 0 && !NotedSince(START, es, h.number, t - 1000 * h.req.stallSec)
  {
    var p := Run(START, es);
    var h := p.active[i];
    var since := t - 1000 * h.req.stallSec;
    var before := if from < since then from else since - 1;
    assert Valid(START);
    RunLaw(START, es);
    assert Handles(p)[i] == h && h.number < p.next;
    hide AllPossible, Run, LastNote, NotedSince, InTime, Step, Holds, Valid;
    WatchEndsExactly(es, t, i);
    MadeInRun(START, es, h.number, 0, before);
    LastNoteIsLatest(START, es, h.number, before, since, from);
  }
}
