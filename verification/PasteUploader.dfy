/** The paste uploader (qlappcom/pasteuploader.cpp:24-54, 297-375, 377-512, 556-582): one request per host, three for
    storage.to, whose step the session never resets. */
module PasteUploader {
  import opened Options
  import opened Failover
  import opened Permutations
  import opened Sessions

  datatype Kind = Text | Image | Video | File

  datatype HostId =
    | Dpaste | Catbox | ZeroX0 | TransferSh | Mhimg | ScdnIo | TmpfileLink | TempfileOrg | StorageTo | Litterbox
    | PastebinCom

  /** kinds: what it takes. expiries: the lifetimes it offers. */
  datatype Host = Host(id: HostId, kinds: set<Kind>, expiries: set<string>, unsupported: bool, disabled: bool)

  const FILES: set<Kind> := {Text, Image, Video, File}
  const NEVER: set<string> := {"never"}

  const HOSTS: seq<Host> :=
    [Host(Dpaste, {Text}, {"1d", "1w", "1m", "1y"}, false, false),
     Host(Catbox, FILES, NEVER, false, true),
     Host(ZeroX0, FILES, {"1h", "1d", "1w", "1m", "1y"}, false, true),
     Host(TransferSh, FILES, {"1d", "1w", "1m", "1y"}, false, true),
     Host(Mhimg, {Image}, {"1h"}, false, false)] +
    [Host(ScdnIo, {Image, Video}, NEVER, false, true),
     Host(TmpfileLink, FILES, NEVER, false, false),
     Host(TempfileOrg, FILES, NEVER, false, false),
     Host(StorageTo, FILES, NEVER, false, false),
     Host(Litterbox, FILES, {"1h"}, false, false),
     Host(PastebinCom, {}, {}, true, false)]

  /** ok: 2xx without a transport error. url: what is found in the body, for the first step of storage.to whether an
      upload URL and a key are. */
  datatype Reply = Reply(ok: bool, url: string)

  // ---- The hosts as scripts: what is kept about the current one is the step of storage.to ----

  function Begin(h: HostId): Move<nat> {
    if h == PastebinCom then Nothing else Ask(0)
  }

  function React(h: HostId, step: nat, r: Reply): Move<nat> {
    if !r.ok then Lose
    else if h != StorageTo then (if r.url != "" then Win(r.url) else Lose)
    else if step == 0 then (if r.url != "" then Ask(1) else Lose)
    else if step == 1 then Ask(2)
    else if r.url != "" then Win(r.url)
    else Lose
  }

  function Uploads(): Protocol<HostId, nat, Reply, ()> {
    Protocol((h, w) => Begin(h), (h, l, r, w) => React(h, l, r))
  }

  /** An address is the result exactly when it comes without an error, with storage.to in the answer to the third of its
      requests; and a further request follows exactly the first two of those, the first if it brings an address. */
  lemma RepliesExactly(h: HostId, step: nat, r: Reply)
    ensures forall url :: React(h, step, r) == Win(url) <==>
                          url == r.url && url != "" && r.ok && (h == StorageTo ==> step > 1)
    ensures forall next :: React(h, step, r) == Ask(next) <==>
                           h == StorageTo && r.ok && next == step + 1 && (step == 1 || (step == 0 && r.url != ""))
  {
  }

  function Bound(h: HostId): nat {
    if h == StorageTo then 3 else 1
  }

  function Cost(h: HostId, step: nat): nat {
    if h == StorageTo && step < 2 then 2 - step else 0
  }

  /** storage.to takes at most 3 requests, every other host one. */
  lemma UploadsBounded()
    ensures Bounded(Uploads(), Bound, Cost)
  {
    forall h, l, r, w | Uploads().react(h, l, r, w).Ask?
      ensures Cost(h, Uploads().react(h, l, r, w).local) < Cost(h, l)
    {
    }
  }

  lemma StorageToBoundReached(r: Reply)
    requires r.ok && r.url != ""
    ensures Requests(Uploads(), StartNext(Uploads(), [StorageTo], 0, [], ()), [(r, ())] + ([(r, ())] + [])) ==
            Bound(StorageTo)
  {
    var s := Session([StorageTo], 0, 0, [StorageTo]);
    assert StartNext(Uploads(), [StorageTo], 0, [], ()) == Waiting(s);
    RequestsStep(Uploads(), s, r, (), [(r, ())] + [], 1);
    RequestsStep(Uploads(), s.(local := 1), r, (), [], 2);
  }

  // ---- The candidates ----

  /** expiry "" or "auto" does not restrict the hosts; what is not a known lifetime counts as "never". */
  function Lifetime(expiry: string): string {
    if expiry in {"1h", "1d", "1w", "1m", "1y"} then expiry else "never"
  }

  predicate Offers(h: Host, expiry: string) {
    if expiry == "" || expiry == "auto" then h.expiries != {} else Lifetime(expiry) in h.expiries
  }

  predicate Fits(h: Host, kind: Kind, expiry: string) {
    !h.unsupported && !h.disabled && kind in h.kinds && Offers(h, expiry)
  }

  function Fitting(hs: seq<Host>, kind: Kind, expiry: string): seq<HostId> {
    if hs == [] then []
    else if Fits(hs[0], kind, expiry) then [hs[0].id] + Fitting(hs[1..], kind, expiry)
    else Fitting(hs[1..], kind, expiry)
  }

  predicate DistinctIds(hs: seq<Host>) {
    forall i, j :: 0 <= i < j < |hs| ==> hs[i].id != hs[j].id
  }

  lemma {:induction false} FittingElements(hs: seq<Host>, kind: Kind, expiry: string)
    requires DistinctIds(hs)
    ensures Distinct(Fitting(hs, kind, expiry))
    ensures forall id :: id in Fitting(hs, kind, expiry) <==>
                         exists i :: 0 <= i < |hs| && hs[i].id == id && Fits(hs[i], kind, expiry)
  {
    hide Fits;
    if hs != [] {
      var rest := Fitting(hs[1..], kind, expiry);
      FittingElements(hs[1..], kind, expiry);
      assert forall i :: 1 <= i < |hs| ==> hs[i] == hs[1..][i - 1];
      assert hs[0].id !in rest;
      assert forall i :: 0 <= i < |rest| ==> rest[i] != hs[0].id;
    }
  }

  lemma HostsDistinct()
    ensures DistinctIds(HOSTS) && |HOSTS| == 11
    ensures forall i :: 0 <= i < 11 ==> (HOSTS[i].id == PastebinCom ==> HOSTS[i].unsupported)
  {
    var a, b := HOSTS[..5], HOSTS[5..];
    assert HOSTS == a + b;
    assert forall i :: 0 <= i < 5 ==> HOSTS[i] == a[i];
    assert forall i :: 5 <= i < 11 ==> HOSTS[i] == b[i - 5];
  }

  /** The hosts that take a kind of file for a lifetime: without a choice of lifetime all that take the kind; for one of
      the five named lifetimes those that offer it; for anything else those that keep files for ever. */
  function Takers(kind: Kind, expiry: string): seq<HostId> {
    var forever := [TmpfileLink, TempfileOrg, StorageTo];
    if expiry == "" || expiry == "auto" then
      match kind
      case Text => [Dpaste] + forever + [Litterbox]
      case Image => [Mhimg] + forever + [Litterbox]
      case _ => forever + [Litterbox]
    else if expiry == "1h" then (if kind == Image then [Mhimg] + [Litterbox] else [Litterbox])
    else if expiry == "1d" || expiry == "1w" || expiry == "1m" || expiry == "1y" then
      (if kind == Text then [Dpaste] else [])
    else forever
  }

  /** One host of the table, and whether it takes the kind for the lifetime. */
  function Taken(id: HostId, takes: bool): seq<HostId> {
    if takes then [id] else []
  }

  /** The lifetime, as far as the table tells lifetimes apart. */
  datatype Span = AnySpan | Hour | Days | Ever

  function SpanOf(expiry: string): Span {
    if expiry == "" || expiry == "auto" then AnySpan
    else if expiry == "1h" then Hour
    else if expiry in {"1d", "1w", "1m", "1y"} then Days
    else Ever
  }

  lemma SpansDiffer(expiry: string)
    ensures SpanOf(expiry).Hour? ==> expiry !in {"never", "1d", "1w", "1m", "1y"}
    ensures SpanOf(expiry).Days? ==> expiry !in {"never", "1h"}
    ensures Lifetime(expiry) == if SpanOf(expiry).Hour? || SpanOf(expiry).Days? then expiry else "never"
    ensures "never" !in {"1h", "1d", "1w", "1m", "1y"}
  {
    assert |"never"| == 5;
    assert "1h"[1] == 'h' && "1d"[1] == 'd' && "1w"[1] == 'w' && "1m"[1] == 'm' && "1y"[1] == 'y';
  }

  /** Of the lifetimes that a host offers, only these sets occur. */
  lemma OffersBySpan(h: Host, expiry: string)
    ensures h.expiries == NEVER ==> (Offers(h, expiry) <==> SpanOf(expiry).AnySpan? || SpanOf(expiry).Ever?)
    ensures h.expiries == {"1h"} ==> (Offers(h, expiry) <==> SpanOf(expiry).AnySpan? || SpanOf(expiry).Hour?)
    ensures h.expiries == {"1d", "1w", "1m", "1y"} ==>
              (Offers(h, expiry) <==> SpanOf(expiry).AnySpan? || SpanOf(expiry).Days?)
  {
    SpansDiffer(expiry);
    assert "never" in NEVER && "1h" in {"1h"} && "1d" in {"1d", "1w", "1m", "1y"};
    hide Lifetime;
  }

  lemma FitsAre(kind: Kind, expiry: string)
    ensures |HOSTS| == 11
    ensures var x := SpanOf(expiry);
            && (Fits(HOSTS[0], kind, expiry) <==> kind == Text && (x.AnySpan? || x.Days?))
            && !Fits(HOSTS[1], kind, expiry) && !Fits(HOSTS[2], kind, expiry) && !Fits(HOSTS[3], kind, expiry)
            && (Fits(HOSTS[4], kind, expiry) <==> kind == Image && (x.AnySpan? || x.Hour?))
            && !Fits(HOSTS[5], kind, expiry) && !Fits(HOSTS[10], kind, expiry)
            && (Fits(HOSTS[6], kind, expiry) <==> x.AnySpan? || x.Ever?)
            && (Fits(HOSTS[7], kind, expiry) <==> x.AnySpan? || x.Ever?)
            && (Fits(HOSTS[8], kind, expiry) <==> x.AnySpan? || x.Ever?)
            && (Fits(HOSTS[9], kind, expiry) <==> x.AnySpan? || x.Hour?)
  {
    HostsAre();
    assert kind in FILES && (kind in {Text} <==> kind == Text) && (kind in {Image} <==> kind == Image);
    hide HOSTS, SpanOf, Offers, FILES, NEVER;
    OffersBySpan(HOSTS[0], expiry);
    OffersBySpan(HOSTS[4], expiry);
    OffersBySpan(HOSTS[6], expiry);
    OffersBySpan(HOSTS[7], expiry);
    OffersBySpan(HOSTS[8], expiry);
    OffersBySpan(HOSTS[9], expiry);
  }

  function LastTakers(x: Span): seq<HostId> {
    Taken(TmpfileLink, x.AnySpan? || x.Ever?) + (Taken(TempfileOrg, x.AnySpan? || x.Ever?) +
    (Taken(StorageTo, x.AnySpan? || x.Ever?) + Taken(Litterbox, x.AnySpan? || x.Hour?)))
  }

  lemma LastHosts(kind: Kind, expiry: string)
    requires |HOSTS| == 11
    ensures Fitting(HOSTS[5..], kind, expiry) == LastTakers(SpanOf(expiry))
  {
    HostsAre();
    hide HOSTS, SpanOf, Fits, Fitting;
    FitsAre(kind, expiry);
    assert HOSTS[11..] == [];
    FittingFrom(kind, expiry, 10);
    FittingFrom(kind, expiry, 9);
    FittingFrom(kind, expiry, 8);
    FittingFrom(kind, expiry, 7);
    FittingFrom(kind, expiry, 6);
    FittingFrom(kind, expiry, 5);
  }

  /** The hosts of the table that can be used, one by one. */
  lemma TableFits(kind: Kind, expiry: string)
    ensures var x := SpanOf(expiry);
            Fitting(HOSTS, kind, expiry) ==
            Taken(Dpaste, kind == Text && (x.AnySpan? || x.Days?)) +
            (Taken(Mhimg, kind == Image && (x.AnySpan? || x.Hour?)) + LastTakers(x))
  {
    HostsAre();
    hide HOSTS, SpanOf, Fits, Fitting, LastTakers;
    FitsAre(kind, expiry);
    assert HOSTS[0..] == HOSTS;
    LastHosts(kind, expiry);
    FittingFrom(kind, expiry, 4);
    FittingFrom(kind, expiry, 3);
    FittingFrom(kind, expiry, 2);
    FittingFrom(kind, expiry, 1);
    FittingFrom(kind, expiry, 0);
  }

  lemma FittingFrom(kind: Kind, expiry: string, i: nat)
    requires i < |HOSTS|
    ensures Fitting(HOSTS[i..], kind, expiry) ==
            Taken(HOSTS[i].id, Fits(HOSTS[i], kind, expiry)) + Fitting(HOSTS[i + 1..], kind, expiry)
    ensures Fitting([], kind, expiry) == []
  {
    hide HOSTS, Fits;
    assert HOSTS[i..][1..] == HOSTS[i + 1..];
  }

  lemma HostsAre()
    ensures |HOSTS| == 11
    ensures HOSTS[0] == Host(Dpaste, {Text}, {"1d", "1w", "1m", "1y"}, false, false)
    ensures HOSTS[1].disabled && HOSTS[2].disabled && HOSTS[3].disabled && HOSTS[5].disabled && HOSTS[10].unsupported
    ensures HOSTS[4] == Host(Mhimg, {Image}, {"1h"}, false, false)
    ensures HOSTS[6] == Host(TmpfileLink, FILES, NEVER, false, false)
    ensures HOSTS[7] == Host(TempfileOrg, FILES, NEVER, false, false)
    ensures HOSTS[8] == Host(StorageTo, FILES, NEVER, false, false)
    ensures HOSTS[9] == Host(Litterbox, FILES, {"1h"}, false, false)
  {
    var a, b := HOSTS[..5], HOSTS[5..];
    assert HOSTS == a + b;
    assert forall i :: 0 <= i < 5 ==> HOSTS[i] == a[i];
    assert forall i :: 5 <= i < 11 ==> HOSTS[i] == b[i - 5];
  }

  /** Those, and no others, in the order of the table, are the hosts that fit. */
  lemma FittingHosts(kind: Kind, expiry: string)
    ensures Fitting(HOSTS, kind, expiry) == Takers(kind, expiry)
  {
    TableFits(kind, expiry);
    hide HOSTS, Fitting;
  }

  datatype Choice = All | Any | Named(id: HostId) | Unknown

  method FilterHosts(kind: Kind, expiry: string) returns (out: seq<HostId>)
    ensures out == Fitting(HOSTS, kind, expiry)
  {
    hide Fits, HOSTS;
    out := [];
    for i := 0 to |HOSTS|
      invariant out + Fitting(HOSTS[i..], kind, expiry) == Fitting(HOSTS, kind, expiry)
    {
      assert HOSTS[i..][1..] == HOSTS[i + 1..];
      if Fits(HOSTS[i], kind, expiry) {
        out := out + [HOSTS[i].id];
      }
    }
  }

  /** The candidates of an upload: the hosts that fit in the order of the table or in some order, or the one named if it
      fits. */
  predicate AreCandidates(choice: Choice, kind: Kind, expiry: string, ids: seq<HostId>) {
    match choice
    case All => ids == Fitting(HOSTS, kind, expiry)
    case Any => multiset(ids) == multiset(Fitting(HOSTS, kind, expiry))
    case Named(id) => ids == if id in Fitting(HOSTS, kind, expiry) then [id] else []
    case Unknown => ids == []
  }

  /** They are different from each other, and pastebin.com is never among them. */
  lemma CandidatesNeverPastebin(choice: Choice, kind: Kind, expiry: string, ids: seq<HostId>)
    requires AreCandidates(choice, kind, expiry, ids)
    ensures Distinct(ids) && PastebinCom !in ids
  {
    HostsDistinct();
    hide HOSTS, Fitting;
    FittingElements(HOSTS, kind, expiry);
    assert PastebinCom !in Fitting(HOSTS, kind, expiry);
    if choice.Any? {
      PermutationOfDistinct(Fitting(HOSTS, kind, expiry), ids);
    }
  }

  method BuildCandidates(choice: Choice, kind: Kind, expiry: string, shuffle: seq<HostId> -> seq<HostId>)
    returns (out: seq<HostId>)
    requires forall ids :: multiset(shuffle(ids)) == multiset(ids)
    ensures AreCandidates(choice, kind, expiry, out) && Distinct(out) && PastebinCom !in out
  {
    HostsDistinct();
    hide HOSTS, Fitting;
    FittingElements(HOSTS, kind, expiry);
    assert PastebinCom !in Fitting(HOSTS, kind, expiry);
    match choice
    case Unknown => out := [];
    case Named(id) =>
      hide Fits;
      out := [];
      for i := 0 to |HOSTS|
        invariant forall j :: 0 <= j < i ==> HOSTS[j].id != id
      {
        if id == HOSTS[i].id {
          if Fits(HOSTS[i], kind, expiry) {
            out := [id];
          }
          return;
        }
      }
    case _ =>
      out := FilterHosts(kind, expiry);
      if choice.Any? {
        var fitting := out;
        out := shuffle(fitting);
        PermutationOfDistinct(fitting, out);
      }
  }

  /** The host that sendHost silently ignores would leave a session without a request. It is never a candidate, so
      RunConsistent of module Sessions holds of this bot. */
  lemma SilentExactlyPastebin(cands: seq<HostId>)
    ensures NeverSilent(Uploads(), cands) <==> PastebinCom !in cands
  {
    forall h, l, r, w ensures !Uploads().react(h, l, r, w).Nothing? {
    }
    assert Uploads().begin(PastebinCom, ()).Nothing?;
  }

  // ---- The session ----

  class PasteSession {
    const cands: seq<HostId>
    var index: nat
    var storageStep: nat
    var tried: seq<HostId>
    var handedOver: bool
    var result: Option<Outcome<HostId, nat>>
    /** The completions that addRequest will deliver before it returns. */
    var immediate: seq<(Reply, ())>

    /** The step of storage.to is 0 until that host is begun; it is begun at most once. */
    predicate InHand(begun: bool)
      reads this
    {
      && Distinct(cands) && PastebinCom !in cands && !handedOver && result.None? && index <= |cands|
      && (begun ==> index < |cands|)
      && tried == cands[..if begun then index + 1 else index]
      && (StorageTo !in tried ==> storageStep == 0)
    }

    predicate Settled()
      reads this
    {
      && Distinct(cands) && PastebinCom !in cands && (handedOver <==> result.None?)
      && (handedOver ==> index < |cands| && tried == cands[..index + 1] && (StorageTo !in tried ==> storageStep == 0))
    }

    function CurrentStep(): nat
      reads this
      requires index < |cands|
    {
      if cands[index] == StorageTo then storageStep else 0
    }

    function Now(): Outcome<HostId, nat>
      reads this
      requires Settled()
    {
      if result.Some? then result.value else Waiting(Session(cands, index, CurrentStep(), tried))
    }

    constructor (cands: seq<HostId>, immediate: seq<(Reply, ())>)
      requires Distinct(cands) && PastebinCom !in cands
      ensures InHand(false) && this.cands == cands && this.immediate == immediate && index == 0
    {
      this.cands, this.immediate := cands, immediate;
      index, storageStep := 0, 0;
      tried, handedOver, result := [], false, None;
    }

    /** The session now belongs to the request. The poller may call back before it returns. */
    method SendHttp()
      requires InHand(true)
      modifies this
      ensures Settled()
      ensures Now() == Followed(Uploads(), cands, old(index), Ask(old(CurrentStep())), old(immediate), ())
      decreases |immediate|, |cands| - index, 0
    {
      FollowedStep(Uploads(), cands, index, Ask(CurrentStep()), immediate, ());
      hide Followed;
      handedOver := true;
      if immediate != [] {
        var (r, _) := immediate[0];
        immediate := immediate[1..];
        OnDone(r);
      }
    }

    method PostResult(o: Outcome<HostId, nat>)
      requires Distinct(cands) && PastebinCom !in cands && !handedOver && result.None? && !o.Waiting?
      modifies `result
      ensures Settled() && result == Some(o)
    {
      result := Some(o);
    }

    method StartNext()
      requires InHand(false)
      modifies this
      ensures Settled() && Now() == Begun(Uploads(), cands, old(index), old(immediate), ())
      decreases |immediate|, |cands| - index, 3
    {
      BegunStep(Uploads(), cands, index, immediate, ());
      hide Begun, Followed;
      if index < |cands| {
        SendHost(cands[index]);
        return;
      }
      assert cands[..index] == cands;
      PostResult(Failed(tried));
    }

    /** The return without a request, for a host that is not one of the ten, is never taken. */
    method SendHost(h: HostId)
      requires InHand(false) && index < |cands| && h == cands[index]
      modifies this
      ensures Settled() && Now() == Followed(Uploads(), cands, old(index), Begin(h), old(immediate), ())
      decreases |immediate|, |cands| - index, 1
    {
      hide Followed;
      assert cands[..index] + [h] == cands[..index + 1];
      assert h !in tried by {
        assert forall j :: 0 <= j < |tried| ==> tried[j] == cands[j];
      }
      tried := tried + [h];
      if h == PastebinCom {
        assert false;
        return;
      }
      SendHttp();
    }

    method Fail()
      requires InHand(true)
      modifies this
      ensures Settled() && Now() == Followed(Uploads(), cands, old(index), Lose, old(immediate), ())
      decreases |immediate|, |cands| - index, 0
    {
      FollowedStep(Uploads(), cands, index, Lose, immediate, ());
      hide Begun, Followed;
      index := index + 1;
      StartNext();
    }

    method Succeed(url: string)
      requires InHand(true)
      modifies `result
      ensures Settled() && Now() == Followed(Uploads(), cands, index, Win(url), immediate, ())
    {
      FollowedStep(Uploads(), cands, index, Win(url), immediate, ());
      hide Followed;
      PostResult(Succeeded(url, cands[index]));
    }

    /** A completion, for the one request that the session has with the poller. */
    method OnDone(r: Reply)
      requires Settled() && handedOver
      modifies this
      ensures Settled()
      ensures Now() == Followed(Uploads(), cands, old(index), React(cands[old(index)], old(CurrentStep()), r),
                                old(immediate), ())
      decreases |immediate|, |cands| - index, 5
    {
      hide Followed;
      handedOver := false;
      var h := cands[index];
      if r.ok {
        if h != StorageTo {
          if r.url != "" {
            Succeed(r.url);
            return;
          }
        } else if storageStep == 0 {
          if r.url != "" {
            storageStep := 1;
            SendHttp();
            return;
          }
        } else if storageStep == 1 {
          storageStep := 2;
          SendHttp();
          return;
        } else if r.url != "" {
          Succeed(r.url);
          return;
        }
      }
      Fail();
    }
  }
}
