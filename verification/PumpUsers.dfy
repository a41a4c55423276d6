/** The poller has many users: whose requests are in flight, and that no user's steps touch those of another.

    A bot's requests are followed by their owner and by the number of the session that they carry: what was in flight
    for a bot stays in flight or has its callback called, whatever the pump does and whoever else asks for requests.
    What the callbacks of other users ask for in turn belongs to them. Module EndToEnd puts the bots on top of this.
*/
module PumpUsers {
  import opened PumpSpec
  import opened PumpLaws
  import opened Permutations

  // ---- Whose requests ----

  /** A request of other users: whatever its callback asks for is theirs too. */
  predicate Foreign(r: Request)
    decreases r
  {
    r.owner == Others && AllForeign(r.followUps)
  }

  predicate AllForeign(rs: seq<Request>)
    decreases rs
  {
    rs == [] || (Foreign(rs[0]) && AllForeign(rs[1..]))
  }

  /** A request of a bot has no follow-ups: what its callback asks for is a step of its own. */
  predicate Tame(r: Request) {
    if r.owner == Others then Foreign(r) else r.followUps == []
  }

  predicate AllTame(rs: seq<Request>) {
    forall i :: 0 <= i < |rs| ==> Tame(rs[i])
  }

  function Flight(p: Pump): seq<Request> {
    DelayedRequests(p.delayed) + Requests(p.pending) + Requests(p.active)
  }

  lemma FlightTame(p: Pump)
    requires Valid(p) && AllTame(p.asked)
    ensures AllTame(Flight(p)) && AllTame(DelayedRequests(p.delayed)) && AllTame(Requests(p.pending))
    ensures AllTame(Requests(p.active))
  {
    InFlightIs(p);
    hide Tame, Requests, DelayedRequests, Valid;
    var a, b, c := DelayedRequests(p.delayed), Requests(p.pending), Requests(p.active);
    assert multiset(a + b + c) <= multiset(p.asked);
    TamePart(p.asked, a + b + c);
    assert forall i :: 0 <= i < |a| ==> a[i] == (a + b + c)[i];
    assert forall i :: 0 <= i < |b| ==> b[i] == (a + b + c)[|a| + i];
    assert forall i :: 0 <= i < |c| ==> c[i] == (a + b + c)[|a| + |b| + i];
  }

  lemma TamePart(all: seq<Request>, part: seq<Request>)
    requires AllTame(all) && multiset(part) <= multiset(all)
    ensures AllTame(part)
  {
    hide Tame;
    forall i | 0 <= i < |part| ensures Tame(part[i]) {
      assert part[i] in multiset(all);
      assert part[i] in all;
    }
  }

  lemma InFlightIs(p: Pump)
    requires Valid(p)
    ensures multiset(p.asked) == multiset(Flight(p)) + multiset(p.done)
  {
  }

  /** From p to q only other users have asked for more. */
  predicate AsksForeign(p: Pump, q: Pump) {
    p.asked <= q.asked && forall i :: |p.asked| <= i < |q.asked| ==> Foreign(q.asked[i])
  }

  lemma AsksForeignTwice(p: Pump, q: Pump, r: Pump)
    requires AsksForeign(p, q) && AsksForeign(q, r)
    ensures AsksForeign(p, r)
  {
    hide Foreign;
  }

  lemma TameStays(p: Pump, q: Pump)
    requires AllTame(p.asked) && AsksForeign(p, q)
    ensures AllTame(q.asked)
  {
  }

  lemma {:induction false} AddForeign(p: Pump, r: Request, now: int)
    requires Foreign(r)
    ensures AsksForeign(p, Add(p, r, now))
    decreases r, 2
  {
    var q := p.(asked := p.asked + [r]);
    assert AsksForeign(p, q) && Tame(r);
    hide AsksForeign, Foreign, Tame, Enqueue, Finish;
    AsksNothing(q, q.(delayed := q.delayed + [Delayed(r, now + r.delayMs)]));
    FinishForeign(q, r, now);
    EnqueueForeign(q, r, now);
    AsksForeignTwice(p, q, Add(p, r, now));
  }

  lemma AsksNothing(p: Pump, q: Pump)
    requires q.asked == p.asked
    ensures AsksForeign(p, q)
  {
  }

  lemma {:induction false} EnqueueForeign(p: Pump, r: Request, now: int)
    requires Tame(r)
    ensures AsksForeign(p, Enqueue(p, r, now))
    decreases r, 1
  {
    FinishForeign(p, r, now);
    hide Tame, Foreign, Finish;
  }

  lemma {:induction false} FinishForeign(p: Pump, r: Request, now: int)
    requires Tame(r)
    ensures AsksForeign(p, Finish(p, r, now))
    decreases r, 0
  {
    assert AllForeign(r.followUps);
    hide Foreign;
    AddAllForeign(p.(done := p.done + [r]), r.followUps, now);
  }

  lemma {:induction false} AddAllForeign(p: Pump, rs: seq<Request>, now: int)
    requires AllForeign(rs)
    ensures AsksForeign(p, AddAll(p, rs, now))
    decreases rs
  {
    if rs == [] {
      AsksNothing(p, p);
    } else {
      hide AsksForeign, Add;
      AddForeign(p, rs[0], now);
      AddAllForeign(Add(p, rs[0], now), rs[1..], now);
      AsksForeignTwice(p, Add(p, rs[0], now), AddAll(p, rs, now));
    }
  }

  lemma {:induction false} FinishAllForeign(p: Pump, rs: seq<Request>, now: int)
    requires AllTame(rs)
    ensures AsksForeign(p, FinishAll(p, rs, now))
    decreases |rs|
  {
    if rs == [] {
      AsksNothing(p, p);
    } else {
      hide AsksForeign, Finish, Tame;
      FinishForeign(p, rs[0], now);
      FinishAllForeign(Finish(p, rs[0], now), rs[1..], now);
      AsksForeignTwice(p, Finish(p, rs[0], now), FinishAll(p, rs, now));
    }
  }

  /** A request of a bot: it is asked for, and nothing else. */
  lemma AddOfBot(p: Pump, r: Request, now: int)
    requires Valid(p) && AllTame(p.asked) && r.owner != Others && r.followUps == []
    ensures var q := Add(p, r, now);
            Valid(q) && AllTame(q.asked) && p.done <= q.done && q.asked == p.asked + [r]
  {
    AddLaw(p, r, now, multiset{});
    AddOrdered(p, r, now);
    assert Finish(p.(asked := p.asked + [r]), r, now) == p.(asked := p.asked + [r], done := p.done + [r]);
    hide Valid;
  }

  lemma AddOfOthers(p: Pump, r: Request, now: int)
    requires Valid(p) && AllTame(p.asked) && Foreign(r)
    ensures var q := Add(p, r, now);
            Valid(q) && AllTame(q.asked) && p.done <= q.done && AsksForeign(p, q)
  {
    AddLaw(p, r, now, multiset{});
    AddOrdered(p, r, now);
    AddForeign(p, r, now);
    TameStays(p, Add(p, r, now));
    hide AllTame, AsksForeign, Add;
  }

  // ---- What the pump does by itself ----

  lemma {:induction false} PromoteForeign(p: Pump, now: int)
    requires Valid(p) && AllTame(p.asked)
    ensures AsksForeign(p, Promote(p, now))
    decreases Queued(p), |p.delayed|
  {
    if IsDue(p, now) {
      FlightTame(p);
      assert DelayedRequests(p.delayed)[0] == p.delayed[0].req;
      hide Tame, Valid, Queued, Enqueue;
      var q := PromoteOne(p, now);
      EnqueueForeign(p.(delayed := p.delayed[1..]), p.delayed[0].req, now);
      hide PromoteOne;
      PromoteOneLaw(p, now);
      PromoteOneSize(p, now);
      TameStays(p, q);
      PromoteForeign(q, now);
      hide AsksForeign;
      AsksForeignTwice(p, q, Promote(p, now));
    } else {
      AsksNothing(p, p);
    }
  }

  lemma {:induction false} AttachForeign(p: Pump, now: int)
    requires Valid(p) && AllTame(p.asked)
    ensures AsksForeign(p, Attach(p, now))
    decreases Queued(p)
  {
    if p.pending != [] {
      FlightTame(p);
      assert Requests(p.pending)[0] == p.pending[0].req;
      hide Tame, Valid, Queued, Finish;
      var q := AttachOne(p, now);
      FinishForeign(p.(pending := p.pending[1..]), p.pending[0].req, now);
      assert AsksForeign(p, q);
      hide AttachOne;
      AttachOneLaw(p, now);
      AttachOneSize(p, now);
      TameStays(p, q);
      AttachForeign(q, now);
      hide AsksForeign;
      AsksForeignTwice(p, q, Attach(p, now));
    } else {
      AsksNothing(p, p);
    }
  }

  lemma AdmitForeign(p: Pump, now: int)
    requires Valid(p) && AllTame(p.asked)
    ensures AsksForeign(p, Admit(p, now))
  {
    hide Valid, Promote, Attach, AllTame, AsksForeign;
    var q := Promote(p, now);
    PromoteLaw(p, now);
    PromoteForeign(p, now);
    TameStays(p, q);
    AttachForeign(q, now);
    AsksForeignTwice(p, q, Admit(p, now));
  }

  lemma {:induction false} AbortsForeign(p: Pump, hs: seq<Handle>, now: int)
    requires forall i :: 0 <= i < |hs| ==> Tame(hs[i].req)
    ensures AsksForeign(p, AbortAll(p, hs, now))
    decreases |hs|
  {
    hide Tame, Finish;
    if hs == [] {
      AsksNothing(p, p);
    } else {
      FinishForeign(p.(active := Without(p.active, hs[0].number)), hs[0].req, now);
      assert AsksForeign(p, Abort(p, hs[0], now));
      hide AsksForeign, Abort;
      AbortsForeign(Abort(p, hs[0], now), hs[1..], now);
      AsksForeignTwice(p, Abort(p, hs[0], now), AbortAll(p, hs, now));
    }
  }

  lemma {:induction false} StalledAreActive(hs: seq<Handle>, now: int)
    ensures forall h :: h in Stalled(hs, now) ==> h in hs
  {
    if hs != [] {
      StalledAreActive(hs[1..], now);
    }
  }

  lemma WatchForeign(p: Pump, now: int)
    requires Valid(p) && AllTame(p.asked)
    ensures AsksForeign(p, Watch(p, now))
  {
    FlightTame(p);
    hide Tame, Valid, AbortAll, AsksForeign;
    var stalled := Stalled(p.active, now);
    StalledAreActive(p.active, now);
    forall i | 0 <= i < |stalled| ensures Tame(stalled[i].req) {
      assert stalled[i] in p.active;
      var j :| 0 <= j < |p.active| && p.active[j] == stalled[i];
      assert Requests(p.active)[j] == stalled[i].req;
    }
    AbortsForeign(p, stalled, now);
  }

  datatype PumpAct = Admits | Recovers(renewed: bool) | Watches | Completes(i: nat) | Receives(i: nat) | Drains | Closes

  predicate CanAct(p: Pump, a: PumpAct) {
    (a.Completes? || a.Receives?) ==> a.i < |p.active|
  }

  /** Drains and Closes: a shutdown in its two halves, the callbacks and the end of the multi handle. */
  function Acted(p: Pump, a: PumpAct, now: int): Pump
    requires CanAct(p, a)
  {
    match a
    case Admits => Admit(p, now)
    case Recovers(renewed) => Recover(p, renewed, now)
    case Watches => Watch(p, now)
    case Completes(i) => Complete(p, p.active[i], now)
    case Receives(i) => Progress(p, i, now)
    case Drains => Drain(p, now)
    case Closes => p.(ready := false)
  }

  lemma DrainLaw(p: Pump, now: int)
    requires Valid(p) && AllTame(p.asked)
    ensures var q := Drain(p, now); Valid(q) && p.done <= q.done && AsksForeign(p, q)
  {
    FlightTame(p);
    StopLaw(p, now);
    ReadyIsFree(Drain(p, now).(ready := false), Drain(p, now).ready);
    hide Valid, FinishAll, AllTame;
    var q := p.(pending := [], delayed := []);
    var r := FinishAll(q, Requests(p.pending), now);
    FinishAllForeign(q, Requests(p.pending), now);
    FinishAllForeign(r, DelayedRequests(p.delayed), now);
    var d := Drain(p, now);
    assert d.(ready := false).(ready := d.ready) == d;
    AsksForeignTwice(q, r, d);
  }

  lemma ReadyIsFree(p: Pump, ready: bool)
    requires Valid(p)
    ensures Valid(p.(ready := ready))
  {
  }

  lemma RecoverForeign(p: Pump, renewed: bool, now: int)
    requires Valid(p) && AllTame(p.asked)
    ensures AsksForeign(p, Recover(p, renewed, now))
  {
    FlightTame(p);
    hide Tame, Valid, FinishAll;
    FinishAllForeign(p.(active := [], ready := renewed), Requests(p.active), now);
  }

  lemma CompleteForeign(p: Pump, i: nat, now: int)
    requires Valid(p) && AllTame(p.asked) && i < |p.active|
    ensures AsksForeign(p, Complete(p, p.active[i], now))
  {
    FlightTame(p);
    assert Requests(p.active)[i] == p.active[i].req;
    hide Tame, Valid, Finish, Without;
    FinishForeign(p.(active := Without(p.active, p.active[i].number)), p.active[i].req, now);
  }

  /** The pump keeps its invariant and takes no callback back, and by itself it asks for other users' requests alone. */
  lemma ActedLaw(p: Pump, a: PumpAct, now: int)
    requires Valid(p) && AllTame(p.asked) && CanAct(p, a)
    ensures var q := Acted(p, a, now); Valid(q) && AllTame(q.asked) && p.done <= q.done && AsksForeign(p, q)
  {
    hide Valid, Admit, Recover, Watch, Complete, Progress, Drain, AllTame, AsksForeign;
    match a {
      case Admits =>
        AdmitLaw(p, now);
        AdmitForeign(p, now);
      case Recovers(renewed) =>
        RecoverLaw(p, renewed, now);
        RecoverForeign(p, renewed, now);
      case Watches =>
        WatchLaw(p, now);
        WatchForeign(p, now);
      case Completes(i) =>
        CompleteLaw(p, i, now);
        CompleteForeign(p, i, now);
      case Receives(i) =>
        ProgressLaw(p, i, now);
        ProgressAsksNothing(p, i, now);
        AsksNothing(p, Progress(p, i, now));
      case Drains => DrainLaw(p, now);
      case Closes =>
        ReadyIsFree(p, false);
        AsksNothing(p, p.(ready := false));
    }
    TameStays(p, Acted(p, a, now));
  }

  lemma ProgressAsksNothing(p: Pump, i: nat, now: int)
    requires i < |p.active|
    ensures Progress(p, i, now).asked == p.asked
  {
  }

  // ---- The ids of one user ----

  function IdsOf(rs: seq<Request>, u: User): seq<nat> {
    if rs == [] then [] else (if rs[0].owner == u then [rs[0].id] else []) + IdsOf(rs[1..], u)
  }

  lemma {:induction false} IdsInParts(a: seq<Request>, b: seq<Request>, u: User)
    ensures IdsOf(a + b, u) == IdsOf(a, u) + IdsOf(b, u)
    decreases |a|
  {
    if a == [] {
      assert a + b == b;
    } else {
      assert (a + b)[1..] == a[1..] + b && (a + b)[0] == a[0];
      IdsInParts(a[1..], b, u);
      var first: seq<nat> := if a[0].owner == u then [a[0].id] else [];
      assert first + (IdsOf(a[1..], u) + IdsOf(b, u)) == (first + IdsOf(a[1..], u)) + IdsOf(b, u);
    }
  }

  lemma IdsOfOne(r: Request, u: User)
    ensures IdsOf([r], u) == if r.owner == u then [r.id] else []
  {
    assert [r][1..] == [];
  }

  lemma {:induction false} ForeignIds(rs: seq<Request>, u: User)
    requires u != Others && forall i :: 0 <= i < |rs| ==> Foreign(rs[i])
    ensures IdsOf(rs, u) == []
    decreases |rs|
  {
    if rs != [] {
      ForeignIds(rs[1..], u);
    }
  }

  lemma IdsWithoutPlace(t: seq<Request>, j: nat, u: User)
    requires j < |t|
    ensures multiset(IdsOf(t, u)) == multiset(IdsOf(t[..j] + t[j + 1..], u)) + multiset(IdsOf([t[j]], u))
  {
    hide IdsOf;
    assert t == (t[..j] + [t[j]]) + t[j + 1..];
    IdsInParts(t[..j] + [t[j]], t[j + 1..], u);
    IdsInParts(t[..j], [t[j]], u);
    IdsInParts(t[..j], t[j + 1..], u);
  }

  lemma WithoutFirst(s: seq<Request>)
    requires s != []
    ensures multiset(s[1..]) == multiset(s) - multiset{s[0]}
  {
    assert s == [s[0]] + s[1..];
  }

  lemma {:induction false} SameIds(s: seq<Request>, t: seq<Request>, u: User)
    requires multiset(s) == multiset(t)
    ensures multiset(IdsOf(s, u)) == multiset(IdsOf(t, u))
    decreases |s|
  {
    hide IdsOf;
    if s == [] {
      assert |t| == |multiset(t)| == 0;
      assert t == s;
    } else {
      assert s[0] in multiset(s);
      var j := PlaceOf(t, s[0]);
      WithoutPlace(t, j);
      WithoutFirst(s);
      SameIds(s[1..], t[..j] + t[j + 1..], u);
      IdsWithoutPlace(t, j, u);
      IdsWithoutPlace(s, 0, u);
      assert s[..0] + s[1..] == s[1..];
    }
  }

  /** The callbacks of a user that a step of the pump called. */
  function NewlyDone(p: Pump, q: Pump, u: User): seq<nat>
    requires p.done <= q.done
  {
    IdsOf(q.done[|p.done|..], u)
  }

  lemma Balance(flight: multiset<Request>, done: multiset<Request>, asked: multiset<Request>, more: multiset<Request>,
                flightAfter: multiset<Request>, newly: multiset<Request>)
    requires asked == flight + done && asked + more == flightAfter + (done + newly)
    ensures flight + more == flightAfter + newly
  {
    assert flight + more == (flight + done + more) - done;
    assert flightAfter + newly == (flightAfter + (done + newly)) - done;
  }

  /** Per user: what was in flight, and what was asked for in addition, is in flight or newly done. */
  lemma FlightMoves(p: Pump, q: Pump, more: seq<Request>, u: User)
    requires Valid(p) && Valid(q) && p.done <= q.done && q.asked == p.asked + more
    ensures multiset(IdsOf(Flight(p), u)) + multiset(IdsOf(more, u)) ==
            multiset(IdsOf(Flight(q), u)) + multiset(NewlyDone(p, q, u))
  {
    hide Valid, Flight, IdsOf;
    var newly := q.done[|p.done|..];
    assert q.done == p.done + newly;
    InFlightIs(p);
    InFlightIs(q);
    Balance(multiset(Flight(p)), multiset(p.done), multiset(p.asked), multiset(more), multiset(Flight(q)),
            multiset(newly));
    SameIds(Flight(p) + more, Flight(q) + newly, u);
    IdsInParts(Flight(p), more, u);
    IdsInParts(Flight(q), newly, u);
  }

  /** A step in which only other users ask: a bot's requests stay in flight, or their callbacks are called. */
  lemma BotFlightMoves(p: Pump, q: Pump, u: User)
    requires Valid(p) && Valid(q) && p.done <= q.done && AsksForeign(p, q) && u != Others
    ensures multiset(IdsOf(Flight(p), u)) == multiset(IdsOf(Flight(q), u)) + multiset(NewlyDone(p, q, u))
  {
    hide Valid, Flight, NewlyDone;
    var more := q.asked[|p.asked|..];
    ForeignIds(more, u);
    FlightMoves(p, q, more, u);
  }
}
