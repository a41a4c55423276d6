/** The queue's lock (qlappcom/eventpoller.cpp:180-196, 356-389): which steps of the pump wait for it while they hold
    it. */
module PumpLocks {
  // The functions here follow those of module PumpSpec with the lock in view. A callback that asks for a request while
  // its own thread holds the lock waits for ever; the result is then None.

  import opened Options
  import opened PumpSpec
  import opened PumpLaws

  // ---- Asking ----

  /** Without a poller the request fails before the lock is taken. */
  function AddLocking(p: Pump, r: Request, locked: bool, now: int): Option<Pump>
    decreases r, 2
  {
    var q := p.(asked := p.asked + [r]);
    if !p.ready then FinishLocking(q, r, locked, now)
    else if locked then None
    else if r.delayMs > 0 then Some(q.(delayed := q.delayed + [Delayed(r, now + r.delayMs)]))
    else EnqueueLocking(q, r, true, now)
  }

  function EnqueueLocking(p: Pump, r: Request, locked: bool, now: int): Option<Pump>
    decreases r, 1
  {
    if r.builds then Some(p.(pending := p.pending + [Handle(p.next, r, now)], next := p.next + 1))
    else FinishLocking(p, r, locked, now)
  }

  function FinishLocking(p: Pump, r: Request, locked: bool, now: int): Option<Pump>
    decreases r, 0
  {
    AddAllLocking(p.(done := p.done + [r]), r.followUps, locked, now)
  }

  function AddAllLocking(p: Pump, rs: seq<Request>, locked: bool, now: int): Option<Pump>
    decreases rs
  {
    if rs == [] then Some(p)
    else
      match AddLocking(p, rs[0], locked, now)
      case None => None
      case Some(q) => AddAllLocking(q, rs[1..], locked, now)
  }

  /** It fails in addRequest, under the lock, and its callback asks for more. */
  predicate FailsAsking(r: Request) {
    r.delayMs <= 0 && !r.builds && r.followUps != []
  }

  predicate CallbackBlocks(r: Request, locked: bool) {
    exists i :: 0 <= i < |r.followUps| && (locked || FailsAsking(r.followUps[i]))
  }

  lemma LockedCallback(r: Request)
    ensures CallbackBlocks(r, true) <==> r.followUps != []
  {
    if r.followUps != [] {
      assert r.followUps[0] in r.followUps;
    }
  }

  function Unless(blocks: bool, p: Pump): Option<Pump> {
    if blocks then None else Some(p)
  }

  lemma {:induction false} AddStaysReady(p: Pump, r: Request, now: int)
    ensures Add(p, r, now).ready == p.ready
    decreases r, 2
  {
    FinishStaysReady(p.(asked := p.asked + [r]), r, now);
  }

  lemma {:induction false} FinishStaysReady(p: Pump, r: Request, now: int)
    ensures Finish(p, r, now).ready == p.ready
    decreases r, 0
  {
    AddAllStaysReady(p.(done := p.done + [r]), r.followUps, now);
  }

  lemma {:induction false} AddAllStaysReady(p: Pump, rs: seq<Request>, now: int)
    ensures AddAll(p, rs, now).ready == p.ready
    decreases rs
  {
    if rs != [] {
      hide Add;
      AddStaysReady(p, rs[0], now);
      AddAllStaysReady(Add(p, rs[0], now), rs[1..], now);
    }
  }

  lemma {:induction false} AddBlocksExactly(p: Pump, r: Request, locked: bool, now: int)
    ensures AddLocking(p, r, locked, now) == Unless(p.ready && (locked || FailsAsking(r)), Add(p, r, now))
    decreases r, 2
  {
    var q := p.(asked := p.asked + [r]);
    hide FinishLocking, Finish;
    if !p.ready {
      FinishBlocksExactly(q, r, locked, now);
    } else if !locked && r.delayMs <= 0 && !r.builds {
      FinishBlocksExactly(q, r, true, now);
      LockedCallback(r);
    }
  }

  lemma {:induction false} FinishBlocksExactly(p: Pump, r: Request, locked: bool, now: int)
    ensures FinishLocking(p, r, locked, now) == Unless(p.ready && CallbackBlocks(r, locked), Finish(p, r, now))
    decreases r, 0
  {
    AddAllBlocksExactly(p.(done := p.done + [r]), r.followUps, locked, now);
  }

  lemma {:induction false} AddAllBlocksExactly(p: Pump, rs: seq<Request>, locked: bool, now: int)
    ensures AddAllLocking(p, rs, locked, now) ==
            Unless(p.ready && exists i :: 0 <= i < |rs| && (locked || FailsAsking(rs[i])), AddAll(p, rs, now))
    decreases rs
  {
    if rs != [] {
      AddBlocksExactly(p, rs[0], locked, now);
      hide Add, AddLocking, FailsAsking;
      AddStaysReady(p, rs[0], now);
      AddAllBlocksExactly(Add(p, rs[0], now), rs[1..], locked, now);
      assert forall i :: 1 <= i < |rs| ==> rs[i] == rs[1..][i - 1];
      assert forall i :: 0 <= i < |rs| - 1 ==> rs[1..][i] == rs[i + 1];
    }
  }

  function FinishAllLocking(p: Pump, rs: seq<Request>, now: int): Option<Pump>
    decreases |rs|
  {
    if rs == [] then Some(p)
    else
      match FinishLocking(p, rs[0], false, now)
      case None => None
      case Some(q) => FinishAllLocking(q, rs[1..], now)
  }

  /** Some callback asks for a request that fails in addRequest and asks for more. */
  predicate AnyCallbackBlocks(rs: seq<Request>) {
    exists i :: 0 <= i < |rs| && CallbackBlocks(rs[i], false)
  }

  lemma {:induction false} FinishAllBlocksExactly(p: Pump, rs: seq<Request>, now: int)
    ensures FinishAllLocking(p, rs, now) == Unless(p.ready && AnyCallbackBlocks(rs), FinishAll(p, rs, now))
    ensures FinishAll(p, rs, now).ready == p.ready
    decreases |rs|
  {
    hide CallbackBlocks, Finish, FinishLocking;
    if rs != [] {
      FinishBlocksExactly(p, rs[0], false, now);
      FinishStaysReady(p, rs[0], now);
      FinishAllBlocksExactly(Finish(p, rs[0], now), rs[1..], now);
      assert forall i :: 1 <= i < |rs| ==> rs[i] == rs[1..][i - 1];
      assert forall i :: 0 <= i < |rs| - 1 ==> rs[1..][i] == rs[i + 1];
    }
  }

  // ---- Admission, which holds the lock ----

  /** Without a handle the callback is called under the lock. */
  predicate FailsToBuild(r: Request) {
    !r.builds && r.followUps != []
  }

  /** So it is when the multi handle does not accept it. */
  predicate FailsToAttach(r: Request) {
    !r.attaches && r.followUps != []
  }

  lemma EnqueueBlocksExactly(p: Pump, r: Request, now: int)
    ensures EnqueueLocking(p, r, true, now) == Unless(p.ready && FailsToBuild(r), Enqueue(p, r, now))
    ensures Enqueue(p, r, now).ready == p.ready
    ensures p.ready && !FailsToBuild(r) ==>
              var q := Enqueue(p, r, now);
              q.delayed == p.delayed && q.pending == if r.builds then p.pending + [Handle(p.next, r, now)]
                else p.pending
  {
    FinishStaysReady(p, r, now);
    FinishBlocksExactly(p, r, true, now);
    LockedCallback(r);
    hide FinishLocking;
  }

  function PromoteLocking(p: Pump, now: int): Option<Pump>
    decreases Queued(p), |p.delayed|
  {
    if !IsDue(p, now) then Some(p)
    else
      PromoteOneSize(p, now);
      EnqueueBlocksExactly(p.(delayed := p.delayed[1..]), p.delayed[0].req, now);
      match EnqueueLocking(p.(delayed := p.delayed[1..]), p.delayed[0].req, true, now)
      case None => None
      case Some(q) => PromoteLocking(q, now)
  }

  predicate AnyDue(ds: seq<Delayed>, now: int, bad: Request -> bool) {
    exists i :: 0 <= i < Due(ds, now) && bad(ds[i].req)
  }

  lemma FirstDue(ds: seq<Delayed>, now: int, bad: Request -> bool)
    requires ds != [] && ds[0].readyAt <= now
    ensures AnyDue(ds, now, bad) <==> bad(ds[0].req) || AnyDue(ds[1..], now, bad)
  {
    if AnyDue(ds, now, bad) && !bad(ds[0].req) {
      var i :| 0 <= i < Due(ds, now) && bad(ds[i].req);
      assert ds[1..][i - 1] == ds[i];
    }
    if AnyDue(ds[1..], now, bad) {
      var i :| 0 <= i < Due(ds[1..], now) && bad(ds[1..][i].req);
      assert ds[i + 1] == ds[1..][i];
    }
  }

  predicate AnyPending(hs: seq<Handle>) {
    exists i :: 0 <= i < |hs| && FailsToAttach(hs[i].req)
  }

  lemma AnyPendingSnoc(hs: seq<Handle>, h: Handle)
    ensures AnyPending(hs + [h]) <==> AnyPending(hs) || FailsToAttach(h.req)
  {
    hide FailsToAttach;
    if AnyPending(hs) {
      var i :| 0 <= i < |hs| && FailsToAttach(hs[i].req);
      assert (hs + [h])[i] == hs[i];
    }
    assert (hs + [h])[|hs|] == h;
  }

  function DueFailsToBuild(): Request -> bool {
    (r: Request) => FailsToBuild(r)
  }

  /** A handle is built, and then not accepted. */
  function DueFailsToAttach(): Request -> bool {
    (r: Request) => r.builds && FailsToAttach(r)
  }

  /** Promotion blocks at the first due request that cannot be built and asks for more; otherwise the due requests
      that can be built have joined the pending ones. */
  lemma {:induction false} PromoteBlocksExactly(p: Pump, now: int)
    ensures PromoteLocking(p, now) == Unless(p.ready && AnyDue(p.delayed, now, DueFailsToBuild()), Promote(p, now))
    ensures Promote(p, now).ready == p.ready
    ensures p.ready && !AnyDue(p.delayed, now, DueFailsToBuild()) ==>
              (AnyPending(Promote(p, now).pending) <==>
               AnyPending(p.pending) || AnyDue(p.delayed, now, DueFailsToAttach()))
    decreases Queued(p), |p.delayed|
  {
    hide FailsToBuild, FailsToAttach, AnyPending, Enqueue, EnqueueLocking, Queued;
    if IsDue(p, now) {
      var r, q := p.delayed[0].req, PromoteOne(p, now);
      var h := Handle(p.next, r, now);
      EnqueueBlocksExactly(p.(delayed := p.delayed[1..]), r, now);
      PromoteOneSize(p, now);
      FirstDue(p.delayed, now, DueFailsToBuild());
      FirstDue(p.delayed, now, DueFailsToAttach());
      AnyPendingSnoc(p.pending, h);
      hide AnyDue;
      PromoteBlocksExactly(q, now);
    } else {
      assert Due(p.delayed, now) == 0;
    }
  }

  function AttachOneLocking(p: Pump, now: int): Option<Pump>
    requires p.pending != []
  {
    var h, q := p.pending[0], p.(pending := p.pending[1..]);
    if p.ready && h.req.attaches then Some(q.(active := q.active + [h])) else FinishLocking(q, h.req, true, now)
  }

  lemma AttachOneBlocksExactly(p: Pump, now: int)
    requires p.pending != []
    ensures AttachOneLocking(p, now) == Unless(p.ready && FailsToAttach(p.pending[0].req), AttachOne(p, now))
    ensures AttachOne(p, now).ready == p.ready
    ensures p.ready && !FailsToAttach(p.pending[0].req) ==> AttachOne(p, now).pending == p.pending[1..]
  {
    var r, q := p.pending[0].req, p.(pending := p.pending[1..]);
    FinishStaysReady(q, r, now);
    FinishBlocksExactly(q, r, true, now);
    LockedCallback(r);
    hide FinishLocking;
  }

  function AttachLocking(p: Pump, now: int): Option<Pump>
    decreases Queued(p)
  {
    if p.pending == [] then Some(p)
    else
      AttachOneSize(p, now);
      AttachOneBlocksExactly(p, now);
      match AttachOneLocking(p, now)
      case None => None
      case Some(q) => AttachLocking(q, now)
  }

  lemma FirstPending(hs: seq<Handle>)
    requires hs != []
    ensures AnyPending(hs) <==> FailsToAttach(hs[0].req) || AnyPending(hs[1..])
  {
    hide FailsToAttach;
    if AnyPending(hs) && !FailsToAttach(hs[0].req) {
      var i :| 0 <= i < |hs| && FailsToAttach(hs[i].req);
      assert hs[1..][i - 1] == hs[i];
    }
    if AnyPending(hs[1..]) {
      var i :| 0 <= i < |hs[1..]| && FailsToAttach(hs[1..][i].req);
      assert hs[i + 1] == hs[1..][i];
    }
  }

  lemma {:induction false} AttachBlocksExactly(p: Pump, now: int)
    ensures AttachLocking(p, now) == Unless(p.ready && AnyPending(p.pending), Attach(p, now))
    decreases Queued(p)
  {
    hide FailsToAttach, AttachOne, AttachOneLocking, Queued;
    if p.pending == [] {
      assert !AnyPending(p.pending);
    } else {
      AttachOneBlocksExactly(p, now);
      AttachOneSize(p, now);
      FirstPending(p.pending);
      hide AnyPending;
      AttachBlocksExactly(AttachOne(p, now), now);
    }
  }

  function AdmitLocking(p: Pump, now: int): Option<Pump> {
    match PromoteLocking(p, now)
    case None => None
    case Some(q) => AttachLocking(q, now)
  }

  /** A due request that cannot be built or attached, or a pending one that cannot be attached, asks for more. */
  predicate AdmissionBlocks(p: Pump, now: int) {
    p.ready && (AnyDue(p.delayed, now, DueFailsToBuild()) || AnyDue(p.delayed, now, DueFailsToAttach())
                || AnyPending(p.pending))
  }

  lemma AdmitBlocksExactly(p: Pump, now: int)
    ensures AdmitLocking(p, now) == Unless(AdmissionBlocks(p, now), Admit(p, now))
  {
    hide AnyDue, AnyPending, Promote, Attach, PromoteLocking, AttachLocking;
    PromoteBlocksExactly(p, now);
    AttachBlocksExactly(Promote(p, now), now);
  }

  // ---- The callbacks called under the lock, in order ----

  function Those(rs: seq<Request>, f: Request -> bool): seq<Request> {
    if rs == [] then [] else (if f(rs[0]) then [rs[0]] else []) + Those(rs[1..], f)
  }

  lemma FirstOfThose(r: Request, rs: seq<Request>, f: Request -> bool)
    ensures Those([r] + rs, f) == (if f(r) then [r] else []) + Those(rs, f)
    ensures Those([], f) == []
  {
    assert ([r] + rs)[1..] == rs;
  }

  lemma {:induction false} ThoseInParts(a: seq<Request>, b: seq<Request>, f: Request -> bool)
    ensures Those(a + b, f) == Those(a, f) + Those(b, f)
    decreases |a|
  {
    if a == [] {
      assert a + b == b;
    } else {
      hide Those;
      FirstOfThose(a[0], a[1..], f);
      FirstOfThose(a[0], a[1..] + b, f);
      ThoseInParts(a[1..], b, f);
      assert a == [a[0]] + a[1..] && a + b == [a[0]] + (a[1..] + b);
    }
  }

  predicate IsBuilt(r: Request) {
    r.builds
  }

  predicate Unbuilt(r: Request) {
    !r.builds
  }

  predicate Unattached(r: Request) {
    !r.attaches
  }

  predicate BuiltUnattached(r: Request) {
    r.builds && !r.attaches
  }

  function DueRequests(ds: seq<Delayed>, now: int): seq<Request> {
    DelayedRequests(ds[..Due(ds, now)])
  }

  /** The requests whose callbacks an admission calls: the due ones that cannot be built, then the pending ones and
      those just built that cannot be attached. */
  function CalledUnderLock(p: Pump, now: int): seq<Request> {
    var due := DueRequests(p.delayed, now);
    Those(due, Unbuilt) + Those(Requests(p.pending), Unattached) + Those(due, BuiltUnattached)
  }

  lemma {:induction false} ThoseOfThose(rs: seq<Request>)
    ensures Those(Those(rs, IsBuilt), Unattached) == Those(rs, BuiltUnattached)
  {
    if rs != [] {
      var first: seq<Request> := if IsBuilt(rs[0]) then [rs[0]] else [];
      ThoseInParts(first, Those(rs[1..], IsBuilt), Unattached);
      ThoseOfThose(rs[1..]);
    }
  }

  lemma FirstCall(p: Pump, r: Request, now: int)
    ensures !FailsToBuild(r) ==>
              Enqueue(p, r, now) == (if r.builds
                                     then p.(pending := p.pending + [Handle(p.next, r, now)], next := p.next + 1)
                                     else p.(done := p.done + [r]))
    ensures !FailsToAttach(r) && !r.attaches ==> Finish(p, r, now) == p.(done := p.done + [r])
  {
    if r.followUps == [] {
      assert Finish(p, r, now) == p.(done := p.done + [r]);
    }
  }

  lemma FirstOfDue(ds: seq<Delayed>, now: int)
    requires ds != [] && ds[0].readyAt <= now
    ensures DueRequests(ds, now) == [ds[0].req] + DueRequests(ds[1..], now)
    ensures DueRequests(ds, now)[1..] == DueRequests(ds[1..], now)
  {
    assert ds[..Due(ds, now)][1..] == ds[1..][..Due(ds[1..], now)];
  }

  lemma {:induction false} PromoteCalls(p: Pump, now: int)
    requires p.ready && !AnyDue(p.delayed, now, DueFailsToBuild())
    ensures var q := Promote(p, now);
            && q.ready && q.done == p.done + Those(DueRequests(p.delayed, now), Unbuilt)
            && Requests(q.pending) == Requests(p.pending) + Those(DueRequests(p.delayed, now), IsBuilt)
    decreases Queued(p), |p.delayed|
  {
    hide AnyDue, Queued, Enqueue, FailsToBuild;
    if IsDue(p, now) {
      var r, q := p.delayed[0].req, PromoteOne(p, now);
      FirstDue(p.delayed, now, DueFailsToBuild());
      FirstCall(p.(delayed := p.delayed[1..]), r, now);
      FirstOfDue(p.delayed, now);
      PromoteOneSize(p, now);
      hide DueRequests;
      PromoteCalls(q, now);
      assert Requests(p.pending + [Handle(p.next, r, now)]) == Requests(p.pending) + [r];
    } else {
      assert DueRequests(p.delayed, now) == [];
    }
  }

  lemma {:induction false} AttachCalls(p: Pump, now: int)
    requires p.ready && !AnyPending(p.pending)
    ensures Attach(p, now).done == p.done + Those(Requests(p.pending), Unattached)
    decreases Queued(p)
  {
    hide AnyPending, Queued, Finish, FailsToAttach;
    if p.pending != [] {
      var r, q := p.pending[0].req, p.(pending := p.pending[1..]);
      FirstPending(p.pending);
      FirstCall(q, r, now);
      AttachOneSize(p, now);
      AttachCalls(AttachOne(p, now), now);
      assert Requests(p.pending)[1..] == Requests(p.pending[1..]);
    }
  }

  /** Unless it waits for its lock, an admission calls exactly those callbacks, in that order. */
  lemma CallsInOrder(p: Pump, now: int)
    requires p.ready && !AdmissionBlocks(p, now)
    ensures Admit(p, now).done == p.done + CalledUnderLock(p, now)
  {
    var q, due := Promote(p, now), DueRequests(p.delayed, now);
    hide Promote, Attach, AnyDue, AnyPending, DueRequests, Those, FailsToAttach, FailsToBuild, PromoteLocking, Requests;
    PromoteBlocksExactly(p, now);
    PromoteCalls(p, now);
    AttachCalls(q, now);
    ThoseInParts(Requests(p.pending), Those(due, IsBuilt), Unattached);
    ThoseOfThose(due);
  }

  // ---- The other steps, which do not hold it ----

  function AbortAllLocking(p: Pump, hs: seq<Handle>, now: int): Option<Pump>
    decreases |hs|
  {
    if hs == [] then Some(p)
    else if !Holds(p.active, hs[0].number) then AbortAllLocking(p, hs[1..], now)
    else
      match FinishLocking(p.(active := Without(p.active, hs[0].number)), hs[0].req, false, now)
      case None => None
      case Some(q) => AbortAllLocking(q, hs[1..], now)
  }

  lemma FirstCallback(hs: seq<Handle>)
    requires hs != []
    ensures AnyCallbackBlocks(Requests(hs)) <==>
              CallbackBlocks(hs[0].req, false) || AnyCallbackBlocks(Requests(hs[1..]))
  {
    hide CallbackBlocks;
    var rs := Requests(hs);
    assert rs[1..] == Requests(hs[1..]) && rs[0] == hs[0].req;
    if AnyCallbackBlocks(rs) && !CallbackBlocks(rs[0], false) {
      var i :| 0 <= i < |rs| && CallbackBlocks(rs[i], false);
      assert rs[1..][i - 1] == rs[i];
    }
    if AnyCallbackBlocks(rs[1..]) {
      var i :| 0 <= i < |rs[1..]| && CallbackBlocks(rs[1..][i], false);
      assert CallbackBlocks(rs[i + 1], false);
    }
  }

  /** The stalled ones among the handles after those of kept. */
  lemma {:induction false} AbortAllBlocksExactly(p: Pump, kept: seq<Handle>, hs: seq<Handle>, now: int)
    requires Valid(p) && p.active == kept + hs
    ensures AbortAllLocking(p, Stalled(hs, now), now) ==
            Unless(p.ready && AnyCallbackBlocks(Requests(Stalled(hs, now))), AbortAll(p, Stalled(hs, now), now))
    decreases |hs|
  {
    hide Valid, IsStalled, CallbackBlocks, AnyCallbackBlocks, Finish, FinishLocking, Without;
    if hs == [] {
      assert !AnyCallbackBlocks(Requests([])) by { NoCallback(); }
    } else if IsStalled(hs[0], now) {
      AbortLaw(p, kept, hs, now);
      PopActive(p, |kept|);
      assert p.active[|kept|] == hs[0];
      FirstCallback(Stalled(hs, now));
      assert Stalled(hs, now)[1..] == Stalled(hs[1..], now);
      FinishBlocksExactly(p.(active := Without(p.active, hs[0].number)), hs[0].req, false, now);
      AbortAllBlocksExactly(Abort(p, hs[0], now), kept, hs[1..], now);
    } else {
      assert kept + hs == (kept + [hs[0]]) + hs[1..];
      AbortAllBlocksExactly(p, kept + [hs[0]], hs[1..], now);
    }
  }

  lemma NoCallback()
    ensures !AnyCallbackBlocks(Requests([]))
  {
  }

  /** A step with the lock in view. */
  function StepLocking(p: Pump, e: Event): Option<Pump>
    requires Possible(p, e)
  {
    match e
    case Ask(r, now) => AddLocking(p, r, false, now)
    case AdmitAt(now) => AdmitLocking(p, now)
    case RecoverAt(renewed, now) => FinishAllLocking(p.(active := [], ready := renewed), Requests(p.active), now)
    case WatchAt(now) => AbortAllLocking(p, Stalled(p.active, now), now)
    case Message(i, now) =>
      FinishLocking(p.(active := Without(p.active, p.active[i].number)), p.active[i].req, false, now)
    case Bytes(i, now) => Some(Progress(p, i, now))
    case StopAt(now) =>
      match FinishAllLocking(p.(pending := [], delayed := []), Requests(p.pending), now) {
        case None => None
        case Some(q) =>
          match FinishAllLocking(q, DelayedRequests(p.delayed), now)
          case None => None
          case Some(r) => Some(r.(ready := false))
      }
  }

  predicate Blocks(p: Pump, e: Event)
    requires Possible(p, e)
  {
    match e
    case Ask(r, _) => p.ready && FailsAsking(r)
    case AdmitAt(now) => AdmissionBlocks(p, now)
    case RecoverAt(renewed, _) => renewed && AnyCallbackBlocks(Requests(p.active))
    case WatchAt(now) => p.ready && AnyCallbackBlocks(Requests(Stalled(p.active, now)))
    case Message(i, _) => p.ready && CallbackBlocks(p.active[i].req, false)
    case Bytes(_, _) => false
    case StopAt(_) =>
      p.ready && (AnyCallbackBlocks(Requests(p.pending)) || AnyCallbackBlocks(DelayedRequests(p.delayed)))
  }

  /** A step waits for its own lock exactly when a callback asks for more that is called because its request fails to
      build or to attach; otherwise it does what it does without a lock. */
  lemma StepBlocksExactly(p: Pump, e: Event)
    requires Valid(p) && Possible(p, e)
    ensures StepLocking(p, e) == Unless(Blocks(p, e), Step(p, e))
  {
    hide Valid, Admit, AdmitLocking, AdmissionBlocks, AnyCallbackBlocks, CallbackBlocks, FinishAll, FinishAllLocking;
    match e {
      case Ask(r, now) => AddBlocksExactly(p, r, false, now);
      case AdmitAt(now) => AdmitBlocksExactly(p, now);
      case RecoverAt(renewed, now) => FinishAllBlocksExactly(p.(active := [], ready := renewed), Requests(p.active),
                                                             now);
      case WatchAt(now) =>
        assert p.active == [] + p.active;
        AbortAllBlocksExactly(p, [], p.active, now);
      case Message(i, now) =>
        FinishBlocksExactly(p.(active := Without(p.active, p.active[i].number)), p.active[i].req, false, now);
      case Bytes(_, _) =>
      case StopAt(now) =>
        var q := p.(pending := [], delayed := []);
        FinishAllBlocksExactly(q, Requests(p.pending), now);
        FinishAllBlocksExactly(FinishAll(q, Requests(p.pending), now), DelayedRequests(p.delayed), now);
    }
  }

  // ---- Runs ----

  function RunLocking(p: Pump, es: seq<Event>): Option<Pump>
    requires AllPossible(p, es)
    requires Valid(p)
    decreases |es|
  {
    if es == [] then Some(p)
    else
      StepBlocksExactly(p, es[0]);
      StepLaw(p, es[0]);
      match StepLocking(p, es[0])
      case None => None
      case Some(q) => RunLocking(q, es[1..])
  }

  predicate SomeStepBlocks(p: Pump, es: seq<Event>)
    requires AllPossible(p, es)
    decreases |es|
  {
    es != [] && (Blocks(p, es[0]) || SomeStepBlocks(Step(p, es[0]), es[1..]))
  }

  /** Over every run: the pump comes to a halt at its own lock exactly when one of its steps does, and all that is
      said of runs without a lock holds of the others. */
  lemma {:induction false} RunBlocksExactly(p: Pump, es: seq<Event>)
    requires Valid(p) && AllPossible(p, es)
    ensures RunLocking(p, es) == Unless(SomeStepBlocks(p, es), Run(p, es))
    decreases |es|
  {
    hide Valid, Step, StepLocking, Blocks, Possible;
    if es != [] {
      StepBlocksExactly(p, es[0]);
      StepLaw(p, es[0]);
      RunBlocksExactly(Step(p, es[0]), es[1..]);
    }
  }

  /** A run that halts: a request that the multi handle does not accept, and whose callback asks for another. */
  lemma RefusedRequestHalts(now: int)
    ensures var next := Request(Others, 1, 0, 0, false, true, true, []);
            var refused := Request(Others, 0, 0, 0, false, true, false, [next]);
            var es := [Ask(refused, now)] + [AdmitAt(now)];
            Valid(START) && AllPossible(START, es) && RunLocking(START, es) == None
  {
    var next := Request(Others, 1, 0, 0, false, true, true, []);
    var refused := Request(Others, 0, 0, 0, false, true, false, [next]);
    var es := [Ask(refused, now)] + [AdmitAt(now)];
    assert es[1..] == [AdmitAt(now)] && es[1..][1..] == [];
    assert Valid(START);
    AddBuilt(START, refused, now);
    var p := Add(START, refused, now);
    assert p.pending[0].req == refused;
    assert AnyPending(p.pending);
    RunCons(p, AdmitAt(now), []);
    assert [AdmitAt(now)] + [] == [AdmitAt(now)];
    RunCons(START, Ask(refused, now), [AdmitAt(now)]);
    RunBlocksExactly(START, es);
    assert Blocks(p, AdmitAt(now));
  }
}
