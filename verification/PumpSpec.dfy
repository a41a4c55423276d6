/** The life of a request in the HTTP pump (qlappcom/eventpoller.cpp): delayed, pending, active, done. What libcurl and
    the callbacks will do with a request is written into the request itself. */
module PumpSpec {
  /** Who asks: the process has one poller, which the three bots share with each other and with all other callers. */
  datatype User = Translator | Chat | Uploader | Others

  /** owner, id: the callback and what it is called with. builds: an easy handle can be made for it. attaches: the multi
      handle accepts it. followUps: the requests that its callback issues. */
  datatype Request = Request(owner: User, id: nat, delayMs: int, stallSec: int, reportsProgress: bool, builds: bool,
                             attaches: bool, followUps: seq<Request>)

  datatype Delayed = Delayed(req: Request, readyAt: int)

  /** An easy handle and its context. */
  datatype Handle = Handle(number: nat, req: Request, lastActive: int)

  /** ready: the poller and its multi handle exist. next: the next unused handle number. asked and done: all requests
      asked for and all whose callback has been called, in order. */
  datatype Pump = Pump(ready: bool, delayed: seq<Delayed>, pending: seq<Handle>, active: seq<Handle>, next: nat,
                       asked: seq<Request>, done: seq<Request>)

  const START := Pump(true, [], [], [], 0, [], [])

  // ---- Asking, and the callback, which may ask in turn ----

  function Add(p: Pump, r: Request, now: int): Pump
    decreases r, 2
  {
    var q := p.(asked := p.asked + [r]);
    if !p.ready then Finish(q, r, now)
    else if r.delayMs > 0 then q.(delayed := q.delayed + [Delayed(r, now + r.delayMs)])
    else Enqueue(q, r, now)
  }

  /** A handle is made and joins the pending ones, or the request fails at once. */
  function Enqueue(p: Pump, r: Request, now: int): Pump
    decreases r, 1
  {
    if r.builds then p.(pending := p.pending + [Handle(p.next, r, now)], next := p.next + 1)
    else Finish(p, r, now)
  }

  function Finish(p: Pump, r: Request, now: int): Pump
    decreases r, 0
  {
    AddAll(p.(done := p.done + [r]), r.followUps, now)
  }

  function AddAll(p: Pump, rs: seq<Request>, now: int): Pump
    decreases rs
  {
    if rs == [] then p else AddAll(Add(p, rs[0], now), rs[1..], now)
  }

  function FinishAll(p: Pump, rs: seq<Request>, now: int): Pump
    decreases |rs|
  {
    if rs == [] then p else FinishAll(Finish(p, rs[0], now), rs[1..], now)
  }

  // ---- Termination: a callback is paid for by the request it ends ----

  function Size(r: Request): nat {
    1 + SizeAll(r.followUps)
  }

  function SizeAll(rs: seq<Request>): nat {
    if rs == [] then 0 else Size(rs[0]) + SizeAll(rs[1..])
  }

  function Requests(hs: seq<Handle>): (rs: seq<Request>)
    ensures |rs| == |hs|
  {
    seq(|hs|, i requires 0 <= i < |hs| => hs[i].req)
  }

  function DelayedRequests(ds: seq<Delayed>): (rs: seq<Request>)
    ensures |rs| == |ds|
  {
    seq(|ds|, i requires 0 <= i < |ds| => ds[i].req)
  }

  function Queued(p: Pump): nat {
    SizeAll(DelayedRequests(p.delayed)) + SizeAll(Requests(p.pending))
  }

  lemma {:induction false} SizeAppend(a: seq<Request>, b: seq<Request>)
    ensures SizeAll(a + b) == SizeAll(a) + SizeAll(b)
  {
    if a == [] {
      assert a + b == b;
    } else {
      assert (a + b)[1..] == a[1..] + b;
      SizeAppend(a[1..], b);
    }
  }

  lemma SizeSnoc(a: seq<Request>, r: Request)
    ensures SizeAll(a + [r]) == SizeAll(a) + Size(r)
  {
    SizeAppend(a, [r]);
    assert [r][1..] == [];
  }

  lemma {:induction false} AddSize(p: Pump, r: Request, now: int)
    ensures Queued(Add(p, r, now)) <= Queued(p) + Size(r)
    decreases r, 2
  {
    var q := p.(asked := p.asked + [r]);
    if !p.ready {
      FinishSize(q, r, now);
    } else if r.delayMs > 0 {
      var d := Delayed(r, now + r.delayMs);
      assert DelayedRequests(p.delayed + [d]) == DelayedRequests(p.delayed) + [r];
      SizeSnoc(DelayedRequests(p.delayed), r);
    } else {
      EnqueueSize(q, r, now);
    }
  }

  lemma {:induction false} EnqueueSize(p: Pump, r: Request, now: int)
    ensures Queued(Enqueue(p, r, now)) <= Queued(p) + Size(r)
    ensures !r.builds ==> Queued(Enqueue(p, r, now)) < Queued(p) + Size(r)
    decreases r, 1
  {
    if r.builds {
      var h := Handle(p.next, r, now);
      assert Requests(p.pending + [h]) == Requests(p.pending) + [r];
      SizeSnoc(Requests(p.pending), r);
    } else {
      FinishSize(p, r, now);
    }
  }

  lemma {:induction false} FinishSize(p: Pump, r: Request, now: int)
    ensures Queued(Finish(p, r, now)) < Queued(p) + Size(r)
    decreases r, 0
  {
    AddAllSize(p.(done := p.done + [r]), r.followUps, now);
  }

  lemma {:induction false} AddAllSize(p: Pump, rs: seq<Request>, now: int)
    ensures Queued(AddAll(p, rs, now)) <= Queued(p) + SizeAll(rs)
    decreases rs
  {
    if rs != [] {
      AddSize(p, rs[0], now);
      AddAllSize(Add(p, rs[0], now), rs[1..], now);
    }
  }

  // ---- Admission: what is due moves up, what is pending is attached ----

  predicate IsDue(p: Pump, now: int) {
    p.delayed != [] && p.delayed[0].readyAt <= now
  }

  function PromoteOne(p: Pump, now: int): Pump
    requires p.delayed != []
  {
    Enqueue(p.(delayed := p.delayed[1..]), p.delayed[0].req, now)
  }

  lemma PromoteOneSize(p: Pump, now: int)
    requires p.delayed != []
    ensures var q := PromoteOne(p, now);
            Queued(q) < Queued(p) || (Queued(q) == Queued(p) && |q.delayed| < |p.delayed|)
  {
    var r := p.delayed[0].req;
    assert DelayedRequests(p.delayed)[1..] == DelayedRequests(p.delayed[1..]);
    EnqueueSize(p.(delayed := p.delayed[1..]), r, now);
  }

  function Promote(p: Pump, now: int): Pump
    decreases Queued(p), |p.delayed|
  {
    if !IsDue(p, now) then p
    else
      PromoteOneSize(p, now);
      Promote(PromoteOne(p, now), now)
  }

  function AttachOne(p: Pump, now: int): Pump
    requires p.pending != []
  {
    var h, q := p.pending[0], p.(pending := p.pending[1..]);
    if p.ready && h.req.attaches then q.(active := q.active + [h]) else Finish(q, h.req, now)
  }

  lemma AttachOneSize(p: Pump, now: int)
    requires p.pending != []
    ensures Queued(AttachOne(p, now)) < Queued(p)
  {
    var h, q := p.pending[0], p.(pending := p.pending[1..]);
    assert Requests(p.pending)[1..] == Requests(p.pending[1..]);
    FinishSize(q, h.req, now);
  }

  function Attach(p: Pump, now: int): Pump
    decreases Queued(p)
  {
    if p.pending == [] then p
    else
      AttachOneSize(p, now);
      Attach(AttachOne(p, now), now)
  }

  /** The locked part of an iteration of run. */
  function Admit(p: Pump, now: int): Pump {
    Attach(Promote(p, now), now)
  }

  // ---- Errors, stalls, completion, shutdown ----

  /** All active requests fail, and the multi handle is made anew if that is possible. */
  function Recover(p: Pump, renewed: bool, now: int): Pump {
    FinishAll(p.(active := [], ready := renewed), Requests(p.active), now)
  }

  predicate IsStalled(h: Handle, now: int) {
    h.req.stallSec > 0 && now - h.lastActive > h.req.stallSec * 1000
  }

  function Stalled(hs: seq<Handle>, now: int): seq<Handle> {
    if hs == [] then []
    else if IsStalled(hs[0], now) then [hs[0]] + Stalled(hs[1..], now)
    else Stalled(hs[1..], now)
  }

  function Without(hs: seq<Handle>, number: nat): seq<Handle> {
    if hs == [] then []
    else if hs[0].number == number then hs[1..]
    else [hs[0]] + Without(hs[1..], number)
  }

  predicate Holds(hs: seq<Handle>, number: nat) {
    exists i :: 0 <= i < |hs| && hs[i].number == number
  }

  function Abort(p: Pump, h: Handle, now: int): Pump {
    if Holds(p.active, h.number) then Finish(p.(active := Without(p.active, h.number)), h.req, now) else p
  }

  function AbortAll(p: Pump, hs: seq<Handle>, now: int): Pump
    decreases |hs|
  {
    if hs == [] then p else AbortAll(Abort(p, hs[0], now), hs[1..], now)
  }

  function Watch(p: Pump, now: int): Pump {
    AbortAll(p, Stalled(p.active, now), now)
  }

  /** The message that an attached handle is finished. */
  function Complete(p: Pump, h: Handle, now: int): Pump {
    Finish(p.(active := Without(p.active, h.number)), h.req, now)
  }

  /** Bytes arrived: noted only for a request that reports progress. */
  function Progress(p: Pump, i: nat, now: int): Pump
    requires i < |p.active|
  {
    if p.active[i].req.reportsProgress then p.(active := p.active[i := p.active[i].(lastActive := now)]) else p
  }

  /** The queues are emptied, then the callbacks of what was in them are called. */
  function Drain(p: Pump, now: int): Pump {
    var q := FinishAll(p.(pending := [], delayed := []), Requests(p.pending), now);
    FinishAll(q, DelayedRequests(p.delayed), now)
  }

  /** The poller still counts as ready while those callbacks run. */
  function Stop(p: Pump, now: int): Pump {
    Drain(p, now).(ready := false)
  }

  function At(hs: seq<Handle>, number: nat): Handle
    requires Holds(hs, number)
  {
    if hs[0].number == number then hs[0] else At(hs[1..], number)
  }

  /** The messages of one iteration, each naming a handle; one for a handle that is not attached never arrives. */
  function CompleteAll(p: Pump, messages: seq<nat>, now: int): Pump
    decreases |messages|
  {
    if messages == [] then p
    else if Holds(p.active, messages[0]) then
      CompleteAll(Complete(p, At(p.active, messages[0]), now), messages[1..], now)
    else CompleteAll(p, messages[1..], now)
  }

  /** One round of run. Without a multi handle the poll fails. */
  function Iteration(p: Pump, now: int, polled: bool, performed: bool, renewed: bool, messages: seq<nat>): Pump {
    var q := Admit(p, now);
    if q.ready && polled && performed then CompleteAll(Watch(q, now), messages, now)
    else Recover(q, renewed, now)
  }
}
