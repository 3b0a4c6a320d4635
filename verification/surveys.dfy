/** The survey queue: requests wait for their time, are dispatched to the actor
    who is asked, and are paid out of the commons when the answer comes in. */
module Surveys {
  import opened Common
  import opened Wallets
  import opened Ledger
  import opened Broker
  import Addresses
  import Reputation

  datatype Request = Request(
    id: string,
    kind: string,
    targetServer: string,
    actor: string,
    recipe: string,
    settlementId: string,
    reward: real,
    dispatchAt: real,
    expiresAt: real
  )

  datatype Response = Response(id: string, actor: string, targetServer: string, score: real, collectedAt: real)

  /** The stores of the queue, the ids of the messages the bus accepted so far,
      and the economy the rewards are paid in. */
  datatype Store = Store(
    queue: map<string, real>,
    requests: map<string, Request>,
    responses: map<string, Response>,
    index: set<string>,
    fired: set<string>,
    sent: seq<string>,
    economy: Economy
  )

  function EmptyStore(economy: Economy): Store
  {
    Store(map[], map[], map[], {}, {}, [], economy)
  }

  function HoldId(id: string): string { "survey:" + id }

  // ---- reading the sorted queue ----

  predicate Due(score: real, cutoff: Option<real>) { cutoff.Some? ==> score <= cutoff.value }

  /** A page of the queue as the sorted set returns it: due ids, once each, oldest
      first, as many as there are up to the limit, and none skipped. */
  ghost predicate IsPage(queue: map<string, real>, cutoff: Option<real>, limit: nat, ids: seq<string>)
  {
    && |ids| <= limit
    && (forall i :: 0 <= i < |ids| ==> ids[i] in queue && Due(queue[ids[i]], cutoff))
    && (forall i, j :: 0 <= i < j < |ids| ==> ids[i] != ids[j] && queue[ids[i]] <= queue[ids[j]])
    && (forall k :: k in queue && Due(queue[k], cutoff) && k !in ids ==>
          |ids| == limit && forall i :: 0 <= i < |ids| ==> queue[ids[i]] <= queue[k])
  }

  // ---- the operations ----

  function Enqueue(s: Store, r: Request): Store
  {
    if r.id in s.requests then s
    else s.(requests := s.requests[r.id := r], queue := s.queue[r.id := r.dispatchAt])
  }

  function Unqueue(s: Store, id: string): Store { s.(queue := s.queue - {id}) }

  function Abandon(s: Store, id: string): Store
  {
    s.(queue := s.queue - {id}, fired := s.fired - {id}, requests := s.requests - {id})
  }

  predicate Expired(s: Store, id: string, cutoff: real)
  {
    id in s.requests && s.requests[id].expiresAt <= cutoff
  }

  /** What either walk does to an entry it meets: drop it if its request is gone or
      has expired, leave it otherwise. */
  function Tidy(s: Store, id: string, cutoff: real): Store
  {
    if id !in s.requests then Unqueue(s, id)
    else if Expired(s, id, cutoff) then Abandon(s, id)
    else s
  }

  function TidyAll(s: Store, ids: seq<string>, cutoff: real): Store
    decreases |ids|
  {
    if ids == [] then s else TidyAll(Tidy(s, ids[0], cutoff), ids[1..], cutoff)
  }

  predicate Live(s: Store, id: string, cutoff: real) { id in s.requests && s.requests[id].expiresAt > cutoff }

  /** No actor, or an empty one, means no filter. */
  predicate Listed(s: Store, id: string, cutoff: real, actor: Option<string>)
  {
    Live(s, id, cutoff) && (actor.None? || actor.value == "" || s.requests[id].actor == actor.value)
  }

  function Listing(s: Store, ids: seq<string>, cutoff: real, actor: Option<string>): seq<Request>
  {
    if ids == [] then []
    else (if Listed(s, ids[0], cutoff, actor) then [s.requests[ids[0]]] else [])
         + Listing(s, ids[1..], cutoff, actor)
  }

  datatype Scan = Scan(store: Store, ready: seq<Request>)

  /** The walk of a dispatch: it stops as soon as it has enough. */
  function ScanDue(s: Store, ids: seq<string>, cutoff: real, enough: nat, ready: seq<Request>): Scan
    decreases |ids|
  {
    if ids == [] then Scan(s, ready)
    else if !Live(s, ids[0], cutoff) then ScanDue(Tidy(s, ids[0], cutoff), ids[1..], cutoff, enough, ready)
    else if ids[0] in s.fired then ScanDue(s, ids[1..], cutoff, enough, ready)
    else
      var more := ready + [s.requests[ids[0]]];
      if |more| >= enough then Scan(s, more) else ScanDue(s, ids[1..], cutoff, enough, more)
  }

  predicate Deliverable(r: Request, down: set<string>)
  {
    Addresses.Parse(r.actor).Ok? && r.id !in down
  }

  function Deliver(s: Store, ready: seq<Request>, down: set<string>): Store
    decreases |ready|
  {
    if ready == [] then s
    else
      var r := ready[0];
      Deliver(if Deliverable(r, down) then s.(fired := s.fired + {r.id}, sent := s.sent + [r.id]) else s,
              ready[1..], down)
  }

  function Delivered(ready: seq<Request>, down: set<string>): seq<Request>
  {
    if ready == [] then []
    else if Deliverable(ready[0], down) then [ready[0]] + Delivered(ready[1..], down)
    else Delivered(ready[1..], down)
  }

  /** The bus of a dispatch: the address it sends from, and the surveys whose
      message it fails to send. */
  datatype Bus = Bus(brokerAddress: string, down: set<string>)

  /** Without a bus it is a dry run; with an invalid source address it raises after
      the walk. */
  function FireDue(s: Store, ids: seq<string>, cutoff: real, enough: nat, bus: Option<Bus>): Store
  {
    var scan := ScanDue(s, ids, cutoff, enough, []);
    if bus.None? || Addresses.Parse(bus.value.brokerAddress).Err? then scan.store
    else Deliver(scan.store, scan.ready, bus.value.down)
  }

  function Pay(b: Book, r: Request): Book
  {
    if r.reward > 0.0 then PostAll(b, Transfer(COMMONS_WALLET, HoldId(r.id), r.reward, r.actor)).book else b
  }

  function PayAndScore(e: Economy, r: Request, score: real): Economy
  {
    var rated := Reputation.ApplyCsat(ReputationFor(e, r.targetServer), score);
    Economy(Pay(e.book, r), e.reputations[rated.owner := rated])
  }

  function Submit(s: Store, a: Response, brokered: bool): Store
  {
    if a.id in s.responses then s
    else
      s.(responses := s.responses[a.id := a], index := s.index + {a.id},
         queue := s.queue - {a.id}, fired := s.fired - {a.id},
         economy := if brokered && a.id in s.requests then PayAndScore(s.economy, s.requests[a.id], a.score)
                    else s.economy)
  }

  // ---- runs ----

  /** What can happen to the stores; `Elsewhere` is a wallet operation of some
      other part of the system. */
  datatype Step =
    | Enqueued(request: Request)
    | ListedPending(ids: seq<string>, cutoff: real)
    | Fired(ids: seq<string>, cutoff: real, enough: nat, bus: Option<Bus>)
    | Submitted(response: Response, brokered: bool)
    | Elsewhere(entry: Entry)

  function After(s: Store, step: Step): Store
  {
    match step
    case Enqueued(r) => Enqueue(s, r)
    case ListedPending(ids, cutoff) => TidyAll(s, ids, cutoff)
    case Fired(ids, cutoff, enough, bus) => FireDue(s, ids, cutoff, enough, bus)
    case Submitted(a, brokered) => Submit(s, a, brokered)
    case Elsewhere(e) => s.(economy := s.economy.(book := Post(s.economy.book, e).book))
  }

  predicate IsSurveyHold(op: Op) { !op.Credit? && "survey:" <= op.id }

  predicate Distinct(ids: seq<string>) { forall i, j :: 0 <= i < j < |ids| ==> ids[i] != ids[j] }

  /** Will the survey ever be delivered, given a bus that works? */
  predicate Reachable(r: Request) { Addresses.Parse(r.actor).Ok? && r.dispatchAt < r.expiresAt }

  /** May the request be enqueued without risking a second dispatch? It is there
      already, or its id is unanswered and, if a survey of that id was ever sent,
      this one never will be. */
  predicate Enqueueable(s: Store, r: Request)
  {
    r.id in s.requests || (r.id !in s.responses && (r.id in s.sent ==> !Reachable(r)))
  }

  predicate IsListing(s: Store, ids: seq<string>) { Distinct(ids) && forall k :: k in ids ==> k in s.queue }

  predicate IsDue(s: Store, ids: seq<string>, cutoff: real)
  {
    IsListing(s, ids) && forall k :: k in ids ==> k in s.queue && s.queue[k] <= cutoff
  }

  /** Parts of the queue as it is, and nobody else touching reward holds; answers
      may come for any id whatever. */
  predicate Ordinary(s: Store, step: Step)
  {
    match step
    case ListedPending(ids, _) => IsListing(s, ids)
    case Fired(ids, cutoff, _, _) => IsDue(s, ids, cutoff)
    case Elsewhere(e) => LeavesRewards(e)
    case _ => true
  }

  predicate LeavesRewards(e: Entry) { e.owner == COMMONS_WALLET ==> !IsSurveyHold(e.op) }

  predicate Legal(s: Store, step: Step)
  {
    Ordinary(s, step) && (step.Enqueued? ==> Enqueueable(s, step.request))
  }

  function RunSteps(s: Store, steps: seq<Step>): Store
    decreases |steps|
  {
    if steps == [] then s else RunSteps(After(s, steps[0]), steps[1..])
  }

  predicate LegalRun(s: Store, steps: seq<Step>)
    decreases |steps|
  {
    steps == [] || (Legal(s, steps[0]) && LegalRun(After(s, steps[0]), steps[1..]))
  }

  /** A run in which each listing and each sweep sees a part of the queue as it is. */
  predicate OrdinaryRun(s: Store, steps: seq<Step>)
    decreases |steps|
  {
    steps == [] || (Ordinary(s, steps[0]) && OrdinaryRun(After(s, steps[0]), steps[1..]))
  }

  // ---- the invariant ----

  /** Requests are stored under their own ids. */
  ghost predicate Identified(s: Store) { forall k :: k in s.requests ==> s.requests[k].id == k }

  /** Every queued survey has its request and no answer; the fired ones are the
      queued ones that were sent and could be sent again; nothing was sent twice. */
  ghost predicate QueueSound(s: Store)
  {
    && Identified(s)
    && (forall k :: k in s.queue ==>
          k in s.requests && s.queue[k] == s.requests[k].dispatchAt && k !in s.responses)
    && (forall k :: k in s.fired ==> k in s.queue && k in s.sent)
    && (forall k :: k in s.queue && k in s.sent && Reachable(s.requests[k]) ==> k in s.fired)
    && s.index == s.responses.Keys
    && Distinct(s.sent)
  }

  function Rewards(b: Book, id: string): nat { Opens(b, COMMONS_WALLET, HoldId(id)) }

  /** No reward is pending, and rewards went only to answered surveys, once each. */
  ghost predicate MoneySound(b: Book, answered: set<string>)
  {
    && Audited(b)
    && forall id :: !IsOpen(b, COMMONS_WALLET, HoldId(id)) && Rewards(b, id) <= (if id in answered then 1 else 0)
  }

  ghost predicate Sound(s: Store)
  {
    QueueSound(s) && MoneySound(s.economy.book, s.responses.Keys)
  }

  lemma HoldIdInjective(a: string, b: string)
    ensures HoldId(a) == HoldId(b) <==> a == b
    ensures "survey:" <= HoldId(a)
  {
    assert HoldId(a)[7..] == a && HoldId(b)[7..] == b;
  }

  lemma EnqueueSound(s: Store, r: Request)
    requires QueueSound(s) && Enqueueable(s, r)
    ensures QueueSound(Enqueue(s, r))
  {
  }

  lemma TidySound(s: Store, id: string, cutoff: real)
    requires QueueSound(s)
    ensures QueueSound(Tidy(s, id, cutoff))
    ensures Tidy(s, id, cutoff).economy == s.economy && Tidy(s, id, cutoff).responses == s.responses
    ensures Tidy(s, id, cutoff).sent == s.sent
  {
  }

  /** Tidying touches neither money nor answers nor what was sent, and alters no
      request that it keeps. */
  lemma {:induction false} TidyAllKeeps(s: Store, ids: seq<string>, cutoff: real)
    ensures var t := TidyAll(s, ids, cutoff);
      && t.economy == s.economy && t.responses == s.responses && t.sent == s.sent && t.fired <= s.fired
      && forall k :: k in t.requests ==> k in s.requests && t.requests[k] == s.requests[k]
    decreases |ids|
  {
    if ids != [] { TidyAllKeeps(Tidy(s, ids[0], cutoff), ids[1..], cutoff); }
  }

  lemma {:induction false} TidyAllSound(s: Store, ids: seq<string>, cutoff: real)
    requires QueueSound(s)
    ensures var t := TidyAll(s, ids, cutoff);
      && QueueSound(t)
      && t.economy == s.economy && t.responses == s.responses && t.sent == s.sent
      && (forall k :: k in t.queue ==> k in s.queue)
      && (forall k :: k in s.queue && (k !in ids || Live(s, k, cutoff)) ==> k in t.queue)
    decreases |ids|
  {
    if ids != [] {
      TidySound(s, ids[0], cutoff);
      TidyAllSound(Tidy(s, ids[0], cutoff), ids[1..], cutoff);
    }
  }

  /** The surveys a dispatch is for: due, not expired, not yet sent. */
  function Waiting(s: Store, ids: seq<string>, cutoff: real): seq<Request>
  {
    if ids == [] then []
    else (if Live(s, ids[0], cutoff) && ids[0] !in s.fired then [s.requests[ids[0]]] else [])
         + Waiting(s, ids[1..], cutoff)
  }

  lemma {:induction false} WaitingAfterTidy(s: Store, id: string, ids: seq<string>, cutoff: real)
    requires id !in ids
    ensures Waiting(Tidy(s, id, cutoff), ids, cutoff) == Waiting(s, ids, cutoff)
  {
    if ids != [] { WaitingAfterTidy(s, id, ids[1..], cutoff); }
  }

  function Take(rs: seq<Request>, n: nat): seq<Request> { if n >= |rs| then rs else rs[..n] }

  /** The walk looks at its limit only after taking a survey. */
  function AtLeastOne(enough: nat): nat { if enough == 0 then 1 else enough }

  /** The walk does no more to the stores than tidy the entries it meets. */
  lemma {:induction false} ScanTidies(s: Store, ids: seq<string>, cutoff: real, enough: nat, ready: seq<Request>)
    returns (n: nat)
    ensures n <= |ids| && ScanDue(s, ids, cutoff, enough, ready).store == TidyAll(s, ids[..n], cutoff)
    decreases |ids|
  {
    if ids == [] { return 0; }
    var id, rest := ids[0], ids[1..];
    if Live(s, id, cutoff) && id !in s.fired && |ready| + 1 >= enough { return 0; }
    var more := if Live(s, id, cutoff) && id !in s.fired then ready + [s.requests[id]] else ready;
    var m := ScanTidies(Tidy(s, id, cutoff), rest, cutoff, enough, more);
    assert ids[..m + 1] == [id] + rest[..m];
    return m + 1;
  }

  lemma TakeCons(ready: seq<Request>, r: Request, rest: seq<Request>, n: nat)
    requires n > 0
    ensures ready + Take([r] + rest, n) == (ready + [r]) + Take(rest, n - 1)
  {
  }

  /** It collects the first waiting surveys of its page, up to the limit. */
  lemma {:induction false} ScanCollects(s: Store, ids: seq<string>, cutoff: real, enough: nat, ready: seq<Request>)
    requires Distinct(ids) && |ready| < AtLeastOne(enough)
    ensures ScanDue(s, ids, cutoff, enough, ready).ready
         == ready + Take(Waiting(s, ids, cutoff), AtLeastOne(enough) - |ready|)
    decreases |ids|
  {
    if ids != [] {
      var id, rest := ids[0], ids[1..];
      var waiting := Waiting(s, rest, cutoff);
      assert Distinct(rest) && id !in rest;
      if !Live(s, id, cutoff) {
        assert Waiting(s, ids, cutoff) == waiting;
        WaitingAfterTidy(s, id, rest, cutoff);
        ScanCollects(Tidy(s, id, cutoff), rest, cutoff, enough, ready);
      } else if id in s.fired {
        assert Waiting(s, ids, cutoff) == waiting;
        ScanCollects(s, rest, cutoff, enough, ready);
      } else {
        var r := s.requests[id];
        assert Waiting(s, ids, cutoff) == [r] + waiting;
        TakeCons(ready, r, waiting, AtLeastOne(enough) - |ready|);
        if |ready + [r]| < AtLeastOne(enough) { ScanCollects(s, rest, cutoff, enough, ready + [r]); }
      }
    }
  }

  lemma {:induction false} WaitingFacts(s: Store, ids: seq<string>, cutoff: real)
    requires QueueSound(s) && Distinct(ids)
    ensures forall r :: r in Waiting(s, ids, cutoff) ==>
      r.id in ids && Live(s, r.id, cutoff) && r.id !in s.fired && s.requests[r.id] == r
    ensures DistinctIds(Waiting(s, ids, cutoff))
  {
    if ids != [] {
      var rest := ids[1..];
      WaitingFacts(s, rest, cutoff);
      assert forall k :: k in rest ==> k in ids && k != ids[0];
      assert Live(s, ids[0], cutoff) ==> s.requests[ids[0]].id == ids[0];
    }
  }

  lemma {:induction false} WaitingNone(s: Store, ids: seq<string>, cutoff: real)
    ensures Waiting(s, ids, cutoff) == [] <==> forall k :: k in ids ==> !Live(s, k, cutoff) || k in s.fired
  {
    if ids != [] {
      WaitingNone(s, ids[1..], cutoff);
      assert forall k :: k in ids <==> k == ids[0] || k in ids[1..];
    }
  }

  predicate DistinctIds(rs: seq<Request>) { forall i, j :: 0 <= i < j < |rs| ==> rs[i].id != rs[j].id }

  function Ids(rs: seq<Request>): seq<string> { seq(|rs|, i requires 0 <= i < |rs| => rs[i].id) }

  /** Deliveries are exactly the deliverable surveys among the ready ones, in
      order; each is marked and sent, and nothing else changes. */
  lemma {:induction false} DeliverMarks(s: Store, ready: seq<Request>, down: set<string>)
    ensures var t := Deliver(s, ready, down);
      && t == s.(fired := t.fired, sent := t.sent)
      && t.sent == s.sent + Ids(Delivered(ready, down))
      && forall k :: k in t.fired <==> k in s.fired || k in Ids(Delivered(ready, down))
    decreases |ready|
  {
    if ready == [] {
    } else if !Deliverable(ready[0], down) {
      DeliverMarks(s, ready[1..], down);
    } else {
      var id, tail := ready[0].id, Delivered(ready[1..], down);
      DeliverMarks(s.(fired := s.fired + {id}, sent := s.sent + [id]), ready[1..], down);
      assert Ids([ready[0]] + tail) == [id] + Ids(tail);
      assert s.sent + ([id] + Ids(tail)) == (s.sent + [id]) + Ids(tail);
    }
  }

  lemma {:induction false} DeliveredFacts(ready: seq<Request>, down: set<string>)
    ensures forall r :: r in Delivered(ready, down) <==> r in ready && Deliverable(r, down)
    ensures DistinctIds(ready) ==> DistinctIds(Delivered(ready, down))
  {
    if ready != [] {
      DeliveredFacts(ready[1..], down);
      assert forall r :: r in ready <==> r == ready[0] || r in ready[1..];
      if DistinctIds(ready) {
        assert forall r :: r in ready[1..] ==> r.id != ready[0].id;
      }
    }
  }

  predicate Unsent(s: Store, r: Request)
  {
    r.id in s.queue && r.id in s.requests && s.requests[r.id] == r && r.dispatchAt < r.expiresAt && r.id !in s.fired
  }

  lemma DistinctAppend(a: seq<string>, b: seq<string>)
    requires Distinct(a) && Distinct(b) && forall k :: k in b ==> k !in a
    ensures Distinct(a + b)
  {
    forall i, j | 0 <= i < j < |a + b| ensures (a + b)[i] != (a + b)[j] {
      if i < |a| <= j { assert (a + b)[j] == b[j - |a|] && b[j - |a|] in b && a[i] in a; }
    }
  }

  /** Sending surveys that are queued and not yet sent keeps the queue sound. */
  lemma DeliverSound(s: Store, ready: seq<Request>, down: set<string>)
    requires QueueSound(s) && DistinctIds(ready)
    requires forall r :: r in ready ==> Unsent(s, r)
    ensures QueueSound(Deliver(s, ready, down))
  {
    var some := Delivered(ready, down);
    DeliverMarks(s, ready, down);
    DeliveredFacts(ready, down);
    forall k | k in Ids(some) ensures k in s.queue && k !in s.sent {
      var i :| 0 <= i < |some| && Ids(some)[i] == k;
      assert some[i] in ready && Unsent(s, some[i]) && Deliverable(some[i], down);
    }
    DistinctAppend(s.sent, Ids(some));
  }

  predicate Sendable(s: Store, ids: seq<string>, cutoff: real, r: Request)
  {
    && r.id in ids && Live(s, r.id, cutoff) && s.requests[r.id] == r && Unsent(s, r)
    && r.id !in s.responses && (r.id in s.sent ==> !Reachable(r))
  }

  function Batch(s: Store, ids: seq<string>, cutoff: real, enough: nat): seq<Request>
  {
    Take(Waiting(s, ids, cutoff), AtLeastOne(enough))
  }

  lemma BatchFacts(s: Store, ids: seq<string>, cutoff: real, enough: nat)
    requires QueueSound(s) && IsDue(s, ids, cutoff)
    ensures forall r :: r in Batch(s, ids, cutoff, enough) ==> Sendable(s, ids, cutoff, r)
    ensures DistinctIds(Batch(s, ids, cutoff, enough))
  {
    WaitingFacts(s, ids, cutoff);
    forall r | r in Batch(s, ids, cutoff, enough) ensures Sendable(s, ids, cutoff, r) {
      assert r in Waiting(s, ids, cutoff);
      assert r.id in s.queue && s.queue[r.id] == r.dispatchAt <= cutoff;
    }
  }

  /** The walk only tidies. */
  lemma ScanKeeps(s: Store, ids: seq<string>, cutoff: real, enough: nat)
    ensures var t := ScanDue(s, ids, cutoff, enough, []).store;
      t.economy == s.economy && t.responses == s.responses && t.sent == s.sent && t.fired <= s.fired
  {
    var n := ScanTidies(s, ids, cutoff, enough, []);
    TidyAllKeeps(s, ids[..n], cutoff);
  }

  /** It leaves what is live. */
  lemma ScanStaysSound(s: Store, ids: seq<string>, cutoff: real, enough: nat)
    requires QueueSound(s)
    ensures var t := ScanDue(s, ids, cutoff, enough, []).store;
      QueueSound(t) && forall k :: k in s.queue && Live(s, k, cutoff) ==> k in t.queue
  {
    var n := ScanTidies(s, ids, cutoff, enough, []);
    TidyAllSound(s, ids[..n], cutoff);
  }

  lemma ScanSound(s: Store, ids: seq<string>, cutoff: real, enough: nat)
    requires QueueSound(s) && IsDue(s, ids, cutoff)
    ensures var scan := ScanDue(s, ids, cutoff, enough, []);
      && QueueSound(scan.store) && scan.ready == Batch(s, ids, cutoff, enough)
      && scan.store.economy == s.economy && scan.store.responses == s.responses && scan.store.sent == s.sent
      && scan.store.fired <= s.fired
      && forall k :: k in s.queue && Live(s, k, cutoff) ==> k in scan.store.queue
  {
    ScanKeeps(s, ids, cutoff, enough);
    ScanStaysSound(s, ids, cutoff, enough);
    ScanCollects(s, ids, cutoff, enough, []);
  }

  /** A dispatch sends exactly the first waiting surveys of its page that can be
      delivered: each was queued, live, and neither sent nor answered before. */
  lemma FireSends(s: Store, ids: seq<string>, cutoff: real, enough: nat, bus: Bus)
    requires QueueSound(s) && IsDue(s, ids, cutoff)
    requires Addresses.Parse(bus.brokerAddress).Ok?
    ensures var delivered := Delivered(Batch(s, ids, cutoff, enough), bus.down);
      && FireDue(s, ids, cutoff, enough, Some(bus)).sent == s.sent + Ids(delivered)
      && forall r :: r in delivered ==>
           Sendable(s, ids, cutoff, r) && Deliverable(r, bus.down) && r.id !in s.sent
  {
    ScanSound(s, ids, cutoff, enough);
    BatchFacts(s, ids, cutoff, enough);
    var scan := ScanDue(s, ids, cutoff, enough, []);
    DeliverMarks(scan.store, scan.ready, bus.down);
    DeliveredFacts(scan.ready, bus.down);
  }

  lemma FireKeeps(s: Store, ids: seq<string>, cutoff: real, enough: nat, bus: Option<Bus>)
    ensures var t := FireDue(s, ids, cutoff, enough, bus);
      && t.economy == s.economy && t.responses == s.responses
      && forall k :: k in t.requests ==> k in s.requests && t.requests[k] == s.requests[k]
  {
    var n := ScanTidies(s, ids, cutoff, enough, []);
    TidyAllKeeps(s, ids[..n], cutoff);
    var scan := ScanDue(s, ids, cutoff, enough, []);
    if bus.Some? { DeliverMarks(scan.store, scan.ready, bus.value.down); }
  }

  lemma FireSound(s: Store, ids: seq<string>, cutoff: real, enough: nat, bus: Option<Bus>)
    requires QueueSound(s) && IsDue(s, ids, cutoff)
    ensures var t := FireDue(s, ids, cutoff, enough, bus);
      QueueSound(t) && t.economy == s.economy && t.responses == s.responses
  {
    ScanSound(s, ids, cutoff, enough);
    var scan := ScanDue(s, ids, cutoff, enough, []);
    if bus.Some? {
      BatchFacts(s, ids, cutoff, enough);
      FireKeeps(s, ids, cutoff, enough, None);
      forall r | r in scan.ready ensures Unsent(scan.store, r) { assert Sendable(s, ids, cutoff, r); }
      DeliverSound(scan.store, scan.ready, bus.value.down);
      DeliverMarks(scan.store, scan.ready, bus.value.down);
    }
  }

  /** A dispatch comes to nothing although surveys are waiting exactly when its
      whole page, twice its limit, is taken up by sent or expired ones. */
  lemma IdleExactlyWhenClogged(s: Store, ids: seq<string>, cutoff: real, enough: nat)
    requires QueueSound(s) && enough > 0
    requires IsPage(s.queue, Some(cutoff), 2 * enough, ids)
    requires exists k :: k in s.queue && s.queue[k] <= cutoff && Live(s, k, cutoff) && k !in s.fired
    ensures ScanDue(s, ids, cutoff, enough, []).ready == []
      <==> |ids| == 2 * enough && forall k :: k in ids ==> !Live(s, k, cutoff) || k in s.fired
  {
    ScanCollects(s, ids, cutoff, enough, []);
    WaitingNone(s, ids, cutoff);
    var k :| k in s.queue && s.queue[k] <= cutoff && Live(s, k, cutoff) && k !in s.fired;
    assert Due(s.queue[k], Some(cutoff));
  }

  function Pending(id: string, dispatchAt: real): Request
  {
    Request(id, "periodic", "server", "actor", "recipe", "settlement", 1.0, dispatchAt, 9.0)
  }

  /** Two sent surveys nobody answers keep a third, due as well, from ever being
      dispatched by sweeps of one. */
  lemma CloggedExample(economy: Economy)
    ensures var s := Store(map["a" := 1.0, "b" := 2.0, "c" := 3.0],
                           map["a" := Pending("a", 1.0), "b" := Pending("b", 2.0), "c" := Pending("c", 3.0)],
                           map[], {}, {"a", "b"}, ["a", "b"], economy);
      && QueueSound(s)
      && IsPage(s.queue, Some(4.0), 2, ["a", "b"])
      && Live(s, "c", 4.0) && "c" !in s.fired
      && forall bus :: FireDue(s, ["a", "b"], 4.0, 1, bus) == s
  {
    var s := Store(map["a" := 1.0, "b" := 2.0, "c" := 3.0],
                   map["a" := Pending("a", 1.0), "b" := Pending("b", 2.0), "c" := Pending("c", 3.0)],
                   map[], {}, {"a", "b"}, ["a", "b"], economy);
    assert ["a", "b"][1..] == ["b"] && ["b"][1..] == [];
    assert ScanDue(s, ["a", "b"], 4.0, 1, []) == ScanDue(s, ["b"], 4.0, 1, []) == Scan(s, []);
  }

  // ---- what a walk finds, in its own terms ----

  predicate Before(ids: seq<string>, x: string, y: string)
  {
    exists i, j :: 0 <= i < j < |ids| && ids[i] == x && ids[j] == y
  }

  /** The entries come in the order of the page. */
  predicate InPageOrder(ids: seq<string>, rs: seq<Request>)
  {
    forall a, b :: 0 <= a < b < |rs| ==> Before(ids, rs[a].id, rs[b].id)
  }

  lemma BeforeLater(ids: seq<string>, id: string, x: string, y: string)
    requires Before(ids, x, y)
    ensures Before([id] + ids, x, y)
  {
    var i, j :| 0 <= i < j < |ids| && ids[i] == x && ids[j] == y;
    var page := [id] + ids;
    assert page[i + 1] == x && page[j + 1] == y;
  }

  lemma BeforeAll(ids: seq<string>, id: string, y: string)
    requires y in ids
    ensures Before([id] + ids, id, y)
  {
    var j :| 0 <= j < |ids| && ids[j] == y;
    var page := [id] + ids;
    assert page[0] == id && page[j + 1] == y;
  }

  lemma OrderLater(ids: seq<string>, id: string, rs: seq<Request>)
    requires InPageOrder(ids, rs)
    ensures InPageOrder([id] + ids, rs)
  {
    forall a, b | 0 <= a < b < |rs| ensures Before([id] + ids, rs[a].id, rs[b].id) {
      BeforeLater(ids, id, rs[a].id, rs[b].id);
    }
  }

  lemma OrderFirst(ids: seq<string>, first: Request, rs: seq<Request>)
    requires InPageOrder(ids, rs) && forall r :: r in rs ==> r.id in ids
    ensures InPageOrder([first.id] + ids, [first] + rs)
  {
    var all := [first] + rs;
    forall a, b | 0 <= a < b < |all| ensures Before([first.id] + ids, all[a].id, all[b].id) {
      assert all[b] == rs[b - 1];
      if a == 0 { BeforeAll(ids, first.id, all[b].id); } else { BeforeLater(ids, first.id, rs[a - 1].id, rs[b - 1].id); }
    }
  }

  /** A listing shows the stored requests of its page that expire later and are for the
      actor asked about, if one is, in the order of the page. */
  lemma {:induction false} ListingMeans(s: Store, ids: seq<string>, cutoff: real, actor: Option<string>)
    requires Identified(s)
    ensures forall r :: (r in Listing(s, ids, cutoff, actor) <==>
      && r.id in ids && r.id in s.requests && s.requests[r.id] == r && r.expiresAt > cutoff
      && (actor == None || actor == Some("") || actor == Some(r.actor)))
    ensures InPageOrder(ids, Listing(s, ids, cutoff, actor))
  {
    if ids != [] {
      var rest := Listing(s, ids[1..], cutoff, actor);
      ListingMeans(s, ids[1..], cutoff, actor);
      assert ids == [ids[0]] + ids[1..];
      if Listed(s, ids[0], cutoff, actor) {
        OrderFirst(ids[1..], s.requests[ids[0]], rest);
      } else {
        OrderLater(ids[1..], ids[0], rest);
        assert [] + rest == rest;
      }
    }
  }

  /** A dispatch considers the stored requests of its page that expire later and are
      not marked as sent, in the order of the page. */
  lemma {:induction false} WaitingMeans(s: Store, ids: seq<string>, cutoff: real)
    requires Identified(s)
    ensures forall r :: (r in Waiting(s, ids, cutoff) <==>
      r.id in ids && r.id in s.requests && s.requests[r.id] == r && r.expiresAt > cutoff && r.id !in s.fired)
    ensures InPageOrder(ids, Waiting(s, ids, cutoff))
  {
    if ids != [] {
      var rest := Waiting(s, ids[1..], cutoff);
      WaitingMeans(s, ids[1..], cutoff);
      assert ids == [ids[0]] + ids[1..];
      if Live(s, ids[0], cutoff) && ids[0] !in s.fired {
        OrderFirst(ids[1..], s.requests[ids[0]], rest);
      } else {
        OrderLater(ids[1..], ids[0], rest);
        assert [] + rest == rest;
      }
    }
  }

  /** Tidying a page drops the requests that have expired by then, with their queue
      entries and marks, and the queue entries without a request. */
  lemma {:induction false} TidyMeans(s: Store, ids: seq<string>, cutoff: real, k: string)
    ensures var t := TidyAll(s, ids, cutoff);
      var expired := k in ids && k in s.requests && s.requests[k].expiresAt <= cutoff;
      && (k in t.requests <==> k in s.requests && !expired)
      && (k in t.fired <==> k in s.fired && !expired)
      && (k in t.queue <==> k in s.queue && !expired && (k in ids ==> k in s.requests))
      && (k in t.requests ==> t.requests[k] == s.requests[k]) && (k in t.queue ==> t.queue[k] == s.queue[k])
    decreases |ids|
  {
    if ids != [] {
      TidyMeans(Tidy(s, ids[0], cutoff), ids[1..], cutoff, k);
      assert k in ids <==> k == ids[0] || k in ids[1..];
    }
  }

  lemma {:induction false} DeliveredMeans(ready: seq<Request>, down: set<string>, r: Request)
    ensures r in Delivered(ready, down) <==> r in ready && Addresses.Parse(r.actor).Ok? && r.id !in down
  {
    if ready != [] {
      DeliveredMeans(ready[1..], down, r);
      assert r in ready <==> r == ready[0] || r in ready[1..];
    }
  }

  /** One of the first so many, at least one. */
  predicate AmongFirst(waiting: seq<Request>, enough: nat, r: Request)
  {
    exists i :: 0 <= i < |waiting| && (i < enough || i == 0) && waiting[i] == r
  }

  lemma BatchMeans(s: Store, ids: seq<string>, cutoff: real, enough: nat, r: Request)
    ensures r in Batch(s, ids, cutoff, enough) <==> AmongFirst(Waiting(s, ids, cutoff), enough, r)
  {
    var waiting, batch := Waiting(s, ids, cutoff), Batch(s, ids, cutoff, enough);
    if AmongFirst(waiting, enough, r) {
      var i :| 0 <= i < |waiting| && (i < enough || i == 0) && waiting[i] == r;
      assert batch[i] == r;
    }
    if r in batch {
      var i :| 0 <= i < |batch| && batch[i] == r;
      assert 0 <= i < |waiting| && waiting[i] == r;
    }
  }

  /** Which surveys a dispatch sends: of the first so many waiting ones, at least one,
      those whose actor has an address and whose message gets through. */
  lemma FireMeans(s: Store, ids: seq<string>, cutoff: real, enough: nat, bus: Bus, r: Request)
    requires QueueSound(s) && IsDue(s, ids, cutoff) && Addresses.Parse(bus.brokerAddress).Ok?
    ensures var delivered := Delivered(Batch(s, ids, cutoff, enough), bus.down);
      && FireDue(s, ids, cutoff, enough, Some(bus)).sent == s.sent + Ids(delivered)
      && (r in delivered <==>
            AmongFirst(Waiting(s, ids, cutoff), enough, r) && Addresses.Parse(r.actor).Ok? && r.id !in bus.down)
  {
    FireSends(s, ids, cutoff, enough, bus);
    DeliveredMeans(Batch(s, ids, cutoff, enough), bus.down, r);
    BatchMeans(s, ids, cutoff, enough, r);
  }

  /** A dry run, or one from a broker without an address, sends and marks nothing. */
  lemma DryRunSendsNothing(s: Store, ids: seq<string>, cutoff: real, enough: nat, bus: Option<Bus>)
    requires bus.None? || Addresses.Parse(bus.value.brokerAddress).Err?
    ensures FireDue(s, ids, cutoff, enough, bus).sent == s.sent && FireDue(s, ids, cutoff, enough, bus).fired <= s.fired
  {
    ScanKeeps(s, ids, cutoff, enough);
  }

  /** The first enqueue of an id stores the request and queues it for its time; any
      further one changes nothing. */
  lemma EnqueueMeans(s: Store, r: Request)
    ensures var t := Enqueue(s, r);
      if r.id in s.requests then t == s
      else t == s.(requests := t.requests, queue := t.queue)
           && t.requests == s.requests[r.id := r] && t.queue == s.queue[r.id := r.dispatchAt]
  {
  }

  // ---- answers and rewards ----

  lemma TransferOpens(b: Book, id: string, amount: real, to: string, o: string, k: string)
    requires amount >= 0.0
    ensures var after := PostAll(b, Transfer(COMMONS_WALLET, id, amount, to)).book;
      && Opens(after, o, k) <= Opens(b, o, k) + 1
      && (o != COMMONS_WALLET || k != id ==> Opens(after, o, k) == Opens(b, o, k))
  {
    var es := Transfer(COMMONS_WALLET, id, amount, to);
    PostThree(b, es[0], es[1], es[2]);
    var first := Post(b, es[0]).book;
    PostTwo(first, es[1], es[2]);
    PostOpens(b, es[0], o, k);
    PostOpens(first, es[1], o, k);
    PostOpens(Post(first, es[1]).book, es[2], o, k);
  }

  lemma PaySound(b: Book, r: Request, answered: set<string>)
    requires MoneySound(b, answered) && r.id !in answered
    ensures MoneySound(Pay(b, r), answered + {r.id})
  {
    if r.reward > 0.0 {
      PostAllKeepsAudited(b, Transfer(COMMONS_WALLET, HoldId(r.id), r.reward, r.actor));
      TransferIsAtomic(b, COMMONS_WALLET, HoldId(r.id), r.reward, r.actor);
    }
    forall id
      ensures !IsOpen(Pay(b, r), COMMONS_WALLET, HoldId(id))
      ensures Rewards(Pay(b, r), id) <= (if id in answered + {r.id} then 1 else 0)
    {
      HoldIdInjective(id, r.id);
      assert !IsOpen(b, COMMONS_WALLET, HoldId(id));
      if r.reward > 0.0 { TransferOpens(b, HoldId(r.id), r.reward, r.actor, COMMONS_WALLET, HoldId(id)); }
    }
  }

  lemma PayoutDecided(b: Book, r: Request)
    requires r.reward > 0.0 && !IsOpen(b, COMMONS_WALLET, HoldId(r.id))
    ensures Pay(b, r) == b <==> WalletOf(b, COMMONS_WALLET).Available() < r.reward
  {
    var es := Transfer(COMMONS_WALLET, HoldId(r.id), r.reward, r.actor);
    PostThree(b, es[0], es[1], es[2]);
    var first := Post(b, es[0]);
    PostTwo(first.book, es[1], es[2]);
    if first.error.None? {
      HoldThenRelease(b, COMMONS_WALLET, HoldId(r.id), r.reward);
      var second := Post(first.book, es[1]);
      assert |second.book.history| > |b.history|;
      assert |Post(second.book, es[2]).book.history| > |b.history|;
    }
  }

  /** A payout moves exactly the reward from the commons to the actor, or moves
      nothing at all; either way no hold is left. */
  lemma PayoutIsExact(b: Book, r: Request, answered: set<string>)
    requires MoneySound(b, answered) && r.reward > 0.0
    ensures var after := Pay(b, r);
      && (after == b || forall o ::
            WalletOf(after, o).balance == WalletOf(b, o).balance + Moved(o, COMMONS_WALLET, r.actor, r.reward))
      && (after == b <==> WalletOf(b, COMMONS_WALLET).Available() < r.reward)
      && forall o :: WalletOf(after, o).holds == WalletOf(b, o).holds
  {
    assert !IsOpen(b, COMMONS_WALLET, HoldId(r.id));
    TransferIsAtomic(b, COMMONS_WALLET, HoldId(r.id), r.reward, r.actor);
    PayoutDecided(b, r);
    assert WalletOf(b, COMMONS_WALLET).holds - {HoldId(r.id)} == WalletOf(b, COMMONS_WALLET).holds;
  }

  lemma SubmitPays(s: Store, a: Response, brokered: bool)
    requires Identified(s) && MoneySound(s.economy.book, s.responses.Keys)
    ensures var t := Submit(s, a, brokered); MoneySound(t.economy.book, t.responses.Keys)
  {
    if a.id !in s.responses {
      assert Submit(s, a, brokered).responses.Keys == s.responses.Keys + {a.id};
      if brokered && a.id in s.requests { PaySound(s.economy.book, s.requests[a.id], s.responses.Keys); }
    }
  }

  lemma ElsewhereSound(b: Book, e: Entry, answered: set<string>)
    requires MoneySound(b, answered) && LeavesRewards(e)
    ensures MoneySound(Post(b, e).book, answered)
  {
    PostKeepsAudited(b, e);
    forall id
      ensures !IsOpen(Post(b, e).book, COMMONS_WALLET, HoldId(id))
      ensures Rewards(Post(b, e).book, id) <= (if id in answered then 1 else 0)
    {
      HoldIdInjective(id, id);
      assert !IsOpen(b, COMMONS_WALLET, HoldId(id));
      PostOpens(b, e, COMMONS_WALLET, HoldId(id));
    }
  }

  /** Whatever step it is, and however the ids are used: money moves only when an
      answer is accepted or somebody else moves it. */
  lemma StepPays(s: Store, step: Step)
    requires Identified(s) && MoneySound(s.economy.book, s.responses.Keys)
    requires step.Elsewhere? ==> LeavesRewards(step.entry)
    ensures var t := After(s, step); Identified(t) && MoneySound(t.economy.book, t.responses.Keys)
  {
    match step
    case Enqueued(r) =>
    case ListedPending(ids, cutoff) => TidyAllKeeps(s, ids, cutoff);
    case Fired(ids, cutoff, enough, bus) => FireKeeps(s, ids, cutoff, enough, bus);
    case Submitted(a, brokered) => SubmitPays(s, a, brokered);
    case Elsewhere(e) => ElsewhereSound(s.economy.book, e, s.responses.Keys);
  }

  // ---- what an accepted answer does ----

  /** A first answer that reaches the broker, to a survey whose request is stored. */
  predicate Counts(s: Store, a: Response, brokered: bool)
  {
    a.id !in s.responses && brokered && a.id in s.requests
  }

  /** Is the answer worth something, and can the commons pay it? */
  predicate Earns(s: Store, a: Response, brokered: bool)
  {
    Counts(s, a, brokered) && s.requests[a.id].reward > 0.0
    && WalletOf(s.economy.book, COMMONS_WALLET).Available() >= s.requests[a.id].reward
  }

  /** It moves exactly the reward, from the commons to the one who was asked, if it
      earns it; otherwise, and in any other submission, no wallet changes at all. */
  lemma SubmitPaysExactly(s: Store, a: Response, brokered: bool, o: string)
    requires Identified(s) && MoneySound(s.economy.book, s.responses.Keys)
    ensures var before, after := WalletOf(s.economy.book, o), WalletOf(Submit(s, a, brokered).economy.book, o);
      && after.holds == before.holds
      && (Earns(s, a, brokered) ==>
            var r := s.requests[a.id];
            && (o == COMMONS_WALLET && o != r.actor ==> after.balance == before.balance - r.reward)
            && (o == r.actor && o != COMMONS_WALLET ==> after.balance == before.balance + r.reward)
            && ((o == r.actor <==> o == COMMONS_WALLET) ==> after.balance == before.balance))
      && (!Earns(s, a, brokered) ==> Submit(s, a, brokered).economy.book == s.economy.book)
  {
    if Counts(s, a, brokered) && s.requests[a.id].reward > 0.0 {
      PayoutIsExact(s.economy.book, s.requests[a.id], s.responses.Keys);
    }
  }

  /** Records are kept under their owners' names. */
  ghost predicate Owned(e: Economy) { forall k :: k in e.reputations ==> e.reputations[k].owner == k }

  /** One survey answer more, and nothing else: the first one is the score, each
      further one moves it by a tenth of the difference. */
  ghost predicate OneAnswerMore(r0: Reputation.Entry, r: Reputation.Entry, score: real)
  {
    var s := if score <= 0.0 then 0.0 else if score <= 1.0 then score else 1.0;
    && r.csatSamples == r0.csatSamples + 1
    && (r0.csatSamples == 0 ==> r.csat == s)
    && (r0.csatSamples != 0 ==> 10.0 * (r.csat - r0.csat) == s - r0.csat)
    && r == r0.(csat := r.csat, csatSamples := r.csatSamples)
  }

  /** It is folded into the record of the server the survey was about, and into no
      other; any other submission leaves all records alone. */
  lemma SubmitScoresExactly(s: Store, a: Response, brokered: bool)
    requires Identified(s) && Owned(s.economy)
    ensures var before, after := s.economy.reputations, Submit(s, a, brokered).economy.reputations;
      && Owned(Submit(s, a, brokered).economy)
      && (Counts(s, a, brokered) ==>
            var server := s.requests[a.id].targetServer;
            && server in after && OneAnswerMore(ReputationFor(s.economy, server), after[server], a.score)
            && forall k :: k != server ==> (k in after <==> k in before) && (k in after ==> after[k] == before[k]))
      && (!Counts(s, a, brokered) ==> after == before)
  {
  }

  /** A first answer is kept and takes its survey off the queue and the fired ones;
      no later answer replaces it, and nothing else changes. */
  lemma SubmitKeepsFirst(s: Store, a: Response, brokered: bool)
    ensures var t := Submit(s, a, brokered);
      if a.id in s.responses then t == s
      else
        && t.responses == s.responses[a.id := a] && t.index == s.index + {a.id}
        && t.queue == s.queue - {a.id} && t.fired == s.fired - {a.id}
        && t.requests == s.requests && t.sent == s.sent
  {
  }

  /** How often a run accepts an answer for `id` that earns its reward. */
  function Earned(s: Store, steps: seq<Step>, id: string): nat
    decreases |steps|
  {
    if steps == [] then 0
    else
      (if steps[0].Submitted? && steps[0].response.id == id && Earns(s, steps[0].response, steps[0].brokered) then 1 else 0)
      + Earned(After(s, steps[0]), steps[1..], id)
  }

  lemma TransferGranted(b: Book, id: string, amount: real, to: string)
    requires amount >= 0.0 && !IsOpen(b, COMMONS_WALLET, id)
    ensures Opens(PostAll(b, Transfer(COMMONS_WALLET, id, amount, to)).book, COMMONS_WALLET, id)
         == Opens(b, COMMONS_WALLET, id) + (if WalletOf(b, COMMONS_WALLET).Available() >= amount then 1 else 0)
  {
    var es := Transfer(COMMONS_WALLET, id, amount, to);
    PostThree(b, es[0], es[1], es[2]);
    var first := Post(b, es[0]).book;
    PostTwo(first, es[1], es[2]);
    if Post(b, es[0]).error.None? { HoldThenRelease(b, COMMONS_WALLET, id, amount); }
    PostOpens(b, es[0], COMMONS_WALLET, id);
    PostOpens(first, es[1], COMMONS_WALLET, id);
    PostOpens(Post(first, es[1]).book, es[2], COMMONS_WALLET, id);
  }

  lemma SubmitRewards(s: Store, a: Response, brokered: bool, id: string)
    requires Identified(s) && MoneySound(s.economy.book, s.responses.Keys)
    ensures Rewards(Submit(s, a, brokered).economy.book, id)
         == Rewards(s.economy.book, id) + (if a.id == id && Earns(s, a, brokered) then 1 else 0)
  {
    if Counts(s, a, brokered) && s.requests[a.id].reward > 0.0 {
      var r := s.requests[a.id];
      assert !IsOpen(s.economy.book, COMMONS_WALLET, HoldId(r.id));
      HoldIdInjective(id, r.id);
      TransferOpens(s.economy.book, HoldId(r.id), r.reward, r.actor, COMMONS_WALLET, HoldId(id));
      TransferGranted(s.economy.book, HoldId(r.id), r.reward, r.actor);
    }
  }

  lemma StepRewards(s: Store, step: Step, id: string)
    requires Identified(s) && MoneySound(s.economy.book, s.responses.Keys)
    requires step.Elsewhere? ==> LeavesRewards(step.entry)
    ensures Rewards(After(s, step).economy.book, id) == Rewards(s.economy.book, id)
      + (if step.Submitted? && step.response.id == id && Earns(s, step.response, step.brokered) then 1 else 0)
  {
    match step
    case Enqueued(r) =>
    case ListedPending(ids, cutoff) => TidyAllKeeps(s, ids, cutoff);
    case Fired(ids, cutoff, enough, bus) => FireKeeps(s, ids, cutoff, enough, bus);
    case Submitted(a, brokered) => SubmitRewards(s, a, brokered, id);
    case Elsewhere(e) =>
      HoldIdInjective(id, id);
      PostOpens(s.economy.book, e, COMMONS_WALLET, HoldId(id));
  }

  /** Over any run an id is rewarded exactly as often as an answer to it earned its
      reward: once or never. */
  lemma {:induction false} RewardedWhenEarned(s: Store, steps: seq<Step>, id: string)
    requires Identified(s) && MoneySound(s.economy.book, s.responses.Keys)
    requires forall step :: step in steps && step.Elsewhere? ==> LeavesRewards(step.entry)
    ensures Rewards(RunSteps(s, steps).economy.book, id) == Rewards(s.economy.book, id) + Earned(s, steps, id)
    ensures Rewards(RunSteps(s, steps).economy.book, id) <= 1
    decreases |steps|
  {
    if steps != [] {
      StepRewards(s, steps[0], id);
      StepPays(s, steps[0]);
      RewardedWhenEarned(After(s, steps[0]), steps[1..], id);
    }
  }

  lemma StepQueues(s: Store, step: Step)
    requires QueueSound(s) && Legal(s, step)
    ensures QueueSound(After(s, step))
  {
    match step
    case Enqueued(r) => EnqueueSound(s, r);
    case ListedPending(ids, cutoff) => TidyAllSound(s, ids, cutoff);
    case Fired(ids, cutoff, enough, bus) => FireSound(s, ids, cutoff, enough, bus);
    case _ =>
  }

  /** Every legal run keeps the queue and the money sound. */
  lemma {:induction false} RunSound(s: Store, steps: seq<Step>)
    requires Sound(s) && LegalRun(s, steps)
    ensures Sound(RunSteps(s, steps))
    decreases |steps|
  {
    if steps != [] {
      StepQueues(s, steps[0]);
      StepPays(s, steps[0]);
      RunSound(After(s, steps[0]), steps[1..]);
    }
  }

  /** At most one reward for an id, opened and closed, and only if it was answered. */
  ghost predicate RewardedOnce(s: Store, id: string)
  {
    && Closings(s.economy.book, COMMONS_WALLET, HoldId(id)) == Rewards(s.economy.book, id)
    && Rewards(s.economy.book, id) <= (if id in s.responses then 1 else 0)
  }

  lemma MoneyIsRewardedOnce(s: Store, id: string)
    requires MoneySound(s.economy.book, s.responses.Keys)
    ensures RewardedOnce(s, id)
  {
    assert !IsOpen(s.economy.book, COMMONS_WALLET, HoldId(id));
    OpensMatchClosings(s.economy.book, COMMONS_WALLET, HoldId(id));
  }

  lemma {:induction false} RunPays(s: Store, steps: seq<Step>)
    requires Identified(s) && MoneySound(s.economy.book, s.responses.Keys)
    requires forall step :: step in steps && step.Elsewhere? ==> LeavesRewards(step.entry)
    ensures var t := RunSteps(s, steps); Identified(t) && MoneySound(t.economy.book, t.responses.Keys)
    decreases |steps|
  {
    if steps != [] {
      StepPays(s, steps[0]);
      RunPays(After(s, steps[0]), steps[1..]);
    }
  }

  /** Rewards need no assumption about ids: over any run at all, with ids reused,
      answers before questions and listings of anything, each id is rewarded at
      most once and only for an answer. */
  lemma RewardedAtMostOnce(economy: Economy, steps: seq<Step>, id: string)
    requires MoneySound(economy.book, {})
    requires forall step :: step in steps && step.Elsewhere? ==> LeavesRewards(step.entry)
    ensures RewardedOnce(RunSteps(EmptyStore(economy), steps), id)
  {
    RunPays(EmptyStore(economy), steps);
    MoneyIsRewardedOnce(RunSteps(EmptyStore(economy), steps), id);
  }

  /** Every queued survey has its request, fired surveys are queued, answered ones
      are not; no survey was dispatched twice, and none was rewarded twice. */
  ghost predicate Safe(s: Store)
  {
    && (forall k :: k in s.queue ==> k in s.requests && k !in s.responses)
    && (forall k :: k in s.fired ==> k in s.queue && k in s.sent)
    && Distinct(s.sent)
    && forall id :: RewardedOnce(s, id)
  }

  lemma SoundIsSafe(s: Store)
    requires Sound(s)
    ensures Safe(s)
  {
    forall id ensures RewardedOnce(s, id) { MoneyIsRewardedOnce(s, id); }
  }

  lemma EmptySound(economy: Economy)
    requires MoneySound(economy.book, {})
    ensures Sound(EmptyStore(economy))
  {
  }

  /** Any legal run from an empty queue is safe. */
  lemma SurveysAreSafe(economy: Economy, steps: seq<Step>)
    requires MoneySound(economy.book, {}) && LegalRun(EmptyStore(economy), steps)
    ensures Safe(RunSteps(EmptyStore(economy), steps))
  {
    EmptySound(economy);
    RunSound(EmptyStore(economy), steps);
    SoundIsSafe(RunSteps(EmptyStore(economy), steps));
  }

  // ---- which requests may be enqueued ----

  lemma {:induction false} LatestOf(queue: map<string, real>, due: set<string>) returns (latest: string)
    requires due != {} && due <= queue.Keys
    ensures latest in due && forall k :: k in due ==> queue[k] <= queue[latest]
    decreases due
  {
    latest :| latest in due;
    if due != {latest} {
      var other := LatestOf(queue, due - {latest});
      if queue[other] > queue[latest] { latest := other; }
    }
  }

  lemma {:induction false} PageOf(queue: map<string, real>, due: set<string>) returns (ids: seq<string>)
    requires due <= queue.Keys
    ensures Distinct(ids) && forall k :: k in ids <==> k in due
    ensures forall i, j :: 0 <= i < j < |ids| ==> queue[ids[i]] <= queue[ids[j]]
    decreases due
  {
    ids := [];
    if due != {} {
      var latest := LatestOf(queue, due);
      var earlier := PageOf(queue, due - {latest});
      forall i | 0 <= i < |earlier| ensures earlier[i] != latest && queue[earlier[i]] <= queue[latest] {
        assert earlier[i] in earlier;
      }
      ids := earlier + [latest];
    }
  }

  /** Some sweep with a limit of `enough` is shown everything that is due. */
  lemma FullPage(queue: map<string, real>, cutoff: real) returns (ids: seq<string>)
    ensures IsPage(queue, Some(cutoff), 2 * |ids|, ids)
    ensures forall k :: k in queue && queue[k] <= cutoff ==> k in ids
  {
    ids := PageOf(queue, set k | k in queue && queue[k] <= cutoff);
    assert forall i :: 0 <= i < |ids| ==> ids[i] in ids;
  }

  lemma {:induction false} WaitingLength(s: Store, ids: seq<string>, cutoff: real)
    ensures |Waiting(s, ids, cutoff)| <= |ids|
  {
    if ids != [] { WaitingLength(s, ids[1..], cutoff); }
  }

  lemma {:induction false} WaitingHas(s: Store, ids: seq<string>, cutoff: real, id: string)
    requires id in ids && Live(s, id, cutoff) && id !in s.fired
    ensures s.requests[id] in Waiting(s, ids, cutoff)
    ensures |Waiting(s, ids, cutoff)| <= |ids|
  {
    WaitingLength(s, ids, cutoff);
    if id != ids[0] { WaitingHas(s, ids[1..], cutoff, id); }
  }

  lemma IdsHas(rs: seq<Request>, r: Request)
    requires r in rs
    ensures r.id in Ids(rs)
  {
    var i :| 0 <= i < |rs| && rs[i] == r;
    assert Ids(rs)[i] == r.id;
  }

  /** A sweep that is shown a waiting survey and has room for all of its page sends it. */
  lemma SweepSends(s: Store, r: Request, ids: seq<string>, cutoff: real)
    requires Distinct(ids) && r.id in ids && Live(s, r.id, cutoff) && s.requests[r.id] == r && r.id !in s.fired
    requires Addresses.Parse(r.actor).Ok?
    ensures var t := FireDue(s, ids, cutoff, |ids|, Some(Bus(r.actor, {})));
      exists more :: t.sent == s.sent + more && r.id in more
  {
    var scan := ScanDue(s, ids, cutoff, |ids|, []);
    WaitingHas(s, ids, cutoff, r.id);
    ScanCollects(s, ids, cutoff, |ids|, []);
    assert scan.ready == Waiting(s, ids, cutoff);
    var n := ScanTidies(s, ids, cutoff, |ids|, []);
    TidyAllKeeps(s, ids[..n], cutoff);
    DeliverMarks(scan.store, scan.ready, {});
    DeliveredFacts(scan.ready, {});
    IdsHas(Delivered(scan.ready, {}), r);
  }

  lemma PageIsDue(s: Store, ids: seq<string>, cutoff: real, limit: nat)
    requires IsPage(s.queue, Some(cutoff), limit, ids)
    ensures IsDue(s, ids, cutoff)
  {
    forall k | k in ids ensures k in s.queue && s.queue[k] <= cutoff {
      var i :| 0 <= i < |ids| && ids[i] == k;
      assert Due(s.queue[ids[i]], Some(cutoff));
    }
  }

  lemma SentTwice(a: seq<string>, b: seq<string>, id: string)
    requires id in a && id in b
    ensures !Distinct(a + b)
  {
    var i :| 0 <= i < |a| && a[i] == id;
    var j :| 0 <= j < |b| && b[j] == id;
    assert (a + b)[i] == (a + b)[|a| + j];
  }

  /** A survey that is enqueued under an id already sent, and can be delivered, is
      sent a second time by a sweep that sees the whole queue. */
  lemma SentAgain(s: Store, r: Request) returns (sweep: Step)
    requires r.id in s.requests && s.requests[r.id] == r && r.id in s.queue && s.queue[r.id] == r.dispatchAt
    requires r.id in s.sent && r.id !in s.fired && Reachable(r)
    ensures Legal(s, sweep) && sweep.Fired? && IsPage(s.queue, Some(sweep.cutoff), 2 * sweep.enough, sweep.ids)
    ensures !Distinct(After(s, sweep).sent)
  {
    var ids := FullPage(s.queue, r.dispatchAt);
    sweep := Fired(ids, r.dispatchAt, |ids|, Some(Bus(r.actor, {})));
    PageIsDue(s, ids, r.dispatchAt, 2 * |ids|);
    SweepSends(s, r, ids, r.dispatchAt);
    var more :| After(s, sweep).sent == s.sent + more && r.id in more;
    SentTwice(s.sent, more, r.id);
  }

  lemma RunCons(s: Store, step: Step, rest: seq<Step>)
    ensures RunSteps(s, [step] + rest) == RunSteps(After(s, step), rest)
    ensures OrdinaryRun(s, [step] + rest) <==> Ordinary(s, step) && OrdinaryRun(After(s, step), rest)
  {
    assert ([step] + rest)[1..] == rest;
  }

  ghost predicate StaysSafe(s: Store)
  {
    forall steps :: LegalRun(s, steps) ==> Safe(RunSteps(s, steps))
  }

  lemma SoundStaysSafe(s: Store)
    requires Sound(s)
    ensures StaysSafe(s)
  {
    forall steps | LegalRun(s, steps) ensures Safe(RunSteps(s, steps)) {
      RunSound(s, steps);
      SoundIsSafe(RunSteps(s, steps));
    }
  }

  lemma AnsweredIsUnsafe(s: Store, id: string)
    requires id in s.queue && id in s.responses
    ensures !StaysSafe(s)
  {
    assert LegalRun(s, []) && RunSteps(s, []) == s;
    assert !Safe(RunSteps(s, []));
  }

  lemma OneStepIsUnsafe(s: Store, step: Step)
    requires Legal(s, step) && !Distinct(After(s, step).sent)
    ensures !StaysSafe(s)
  {
    assert [step][1..] == [];
    assert LegalRun(After(s, step), []) && RunSteps(After(s, step), []) == After(s, step);
    assert LegalRun(s, [step]);
    assert [step] == [step] + [];
    RunCons(s, step, []);
    assert !Safe(RunSteps(s, [step]));
  }

  /** The exact condition for a new request, from any sound store: every otherwise
      legal continuation is safe if and only if the id is unanswered and, should it
      have been sent before, this request can never be delivered. For one that can
      be, that is: never sent and never answered. */
  lemma EnqueueIsSafeExactly(s: Store, r: Request)
    requires Sound(s) && r.id !in s.requests
    ensures StaysSafe(Enqueue(s, r)) <==> Enqueueable(s, r)
    ensures Reachable(r) ==> (Enqueueable(s, r) <==> r.id !in s.sent && r.id !in s.responses)
  {
    var t := Enqueue(s, r);
    if Enqueueable(s, r) {
      EnqueueSound(s, r);
      SoundStaysSafe(t);
    } else if r.id in s.responses {
      AnsweredIsUnsafe(t, r.id);
    } else {
      var sweep := SentAgain(t, r);
      OneStepIsUnsafe(t, sweep);
    }
  }

  lemma FiresOne(s: Store, r: Request, cutoff: real, bus: Bus)
    requires r.id in s.requests && s.requests[r.id] == r && r.id !in s.fired && r.expiresAt > cutoff
    requires Deliverable(r, bus.down) && Addresses.Parse(bus.brokerAddress).Ok?
    ensures FireDue(s, [r.id], cutoff, 1, Some(bus)) == s.(fired := s.fired + {r.id}, sent := s.sent + [r.id])
  {
    assert [r.id][1..] == [] && [r][1..] == [];
    assert ScanDue(s, [r.id], cutoff, 1, []) == Scan(s, [r]) by { assert [] + [r] == [r]; }
    assert Deliver(s, [r], bus.down)
      == Deliver(s.(fired := s.fired + {r.id}, sent := s.sent + [r.id]), [], bus.down);
  }

  /** Sent, expired and tidied away, enqueued under the same id, sent again. */
  function Reuse(r: Request, again: Request, bus: Bus): seq<Step>
  {
    [Enqueued(r), Fired([r.id], r.expiresAt - 1.0, 1, Some(bus)), ListedPending([r.id], r.expiresAt),
     Enqueued(again), Fired([r.id], r.expiresAt, 1, Some(bus))]
  }

  lemma RunFive(s: Store, a: Step, b: Step, c: Step, d: Step, e: Step)
    ensures var s2 := After(After(s, a), b);
      var s4 := After(After(s2, c), d);
      && RunSteps(s, [a, b, c, d, e]) == After(s4, e)
      && (OrdinaryRun(s, [a, b, c, d, e]) <==>
            && Ordinary(s, a) && Ordinary(After(s, a), b)
            && Ordinary(s2, c) && Ordinary(After(s2, c), d) && Ordinary(s4, e))
  {
    var s2 := After(After(s, a), b);
    assert [a, b, c, d, e] == [a] + [b, c, d, e] && [b, c, d, e] == [b] + [c, d, e];
    assert [c, d, e] == [c] + [d, e] && [d, e] == [d] + [e] && [e] == [e] + [];
    RunCons(s, a, [b, c, d, e]);
    RunCons(After(s, a), b, [c, d, e]);
    RunCons(s2, c, [d, e]);
    RunCons(After(s2, c), d, [e]);
    RunCons(After(After(s2, c), d), e, []);
  }

  predicate Blank(s: Store) { s.requests == map[] && s.queue == map[] && s.fired == {} }

  /** A blank store, after the only request in it was sent. */
  function JustSent(s: Store, r: Request): Store
  {
    Enqueue(s, r).(fired := {r.id}, sent := s.sent + [r.id])
  }

  lemma SendsWhenDue(s: Store, r: Request, cutoff: real, bus: Bus)
    requires Blank(s) && Deliverable(r, bus.down) && Addresses.Parse(bus.brokerAddress).Ok?
    requires r.dispatchAt <= cutoff < r.expiresAt
    ensures var fire := Fired([r.id], cutoff, 1, Some(bus));
      Ordinary(Enqueue(s, r), fire) && After(Enqueue(s, r), fire) == JustSent(s, r)
  {
    FiresOne(Enqueue(s, r), r, cutoff, bus);
  }

  lemma ForgetsWhenExpired(s: Store, r: Request)
    requires Blank(s)
    ensures var listing := ListedPending([r.id], r.expiresAt);
      Ordinary(JustSent(s, r), listing) && After(JustSent(s, r), listing) == s.(sent := s.sent + [r.id])
  {
    var t := JustSent(s, r);
    assert [r.id][1..] == [];
    assert TidyAll(t, [r.id], r.expiresAt) == TidyAll(Tidy(t, r.id, r.expiresAt), [], r.expiresAt) == Abandon(t, r.id);
  }

  /** How it happens: an expired request forgets that it was sent, so enqueueing its
      id again sends it a second time, both times when it is due. */
  lemma ReusedIdIsSentTwice(economy: Economy, r: Request, again: Request, bus: Bus)
    requires Deliverable(r, bus.down) && Deliverable(again, bus.down) && Addresses.Parse(bus.brokerAddress).Ok?
    requires r.id == again.id && r.expiresAt < again.expiresAt
    requires r.dispatchAt <= r.expiresAt - 1.0 && again.dispatchAt <= r.expiresAt
    ensures OrdinaryRun(EmptyStore(economy), Reuse(r, again, bus))
    ensures RunSteps(EmptyStore(economy), Reuse(r, again, bus)).sent == [r.id, r.id]
  {
    var s0 := EmptyStore(economy);
    var s3 := s0.(sent := [r.id]);
    var steps := Reuse(r, again, bus);
    assert s0.sent + [r.id] == [r.id] && [r.id] + [r.id] == [r.id, r.id];
    SendsWhenDue(s0, r, r.expiresAt - 1.0, bus);
    ForgetsWhenExpired(s0, r);
    SendsWhenDue(s3, again, r.expiresAt, bus);
    RunFive(s0, steps[0], steps[1], steps[2], steps[3], steps[4]);
  }

  function Someone(): Addresses.AgentAddress
  {
    Addresses.AgentAddress("o", "r", "d", "t", "s", "session", "i", map[])
  }

  lemma SomeoneIsValid()
    ensures Addresses.Valid(Someone())
  {
    assert Addresses.ValidToken("o") && Addresses.ValidToken("r") && Addresses.ValidToken("d");
    assert Addresses.ValidToken("t") && Addresses.ValidToken("i");
    assert Addresses.ValidAccept("s") && "session" in Addresses.LIFECYCLES;
  }

  lemma SomeoneParses()
    ensures Addresses.Parse(Addresses.Print(Someone())).Ok?
  {
    SomeoneIsValid();
    Addresses.ParseOfPrint(Someone());
    assert Addresses.TrimOuter(Someone()).org == "o" && Addresses.TrimOuter(Someone()).instance == "i";
  }

  /** For example: dispatched at 0 and expired at 2, then at 1 and 9. */
  lemma ReusedIdExample(economy: Economy)
    ensures var who := Addresses.Print(Someone());
      var r := Request("svy", "satisfaction", "acme", who, "", "", 1.0, 0.0, 2.0);
      var steps := Reuse(r, r.(dispatchAt := 1.0, expiresAt := 9.0), Bus(who, {}));
      && OrdinaryRun(EmptyStore(economy), steps)
      && RunSteps(EmptyStore(economy), steps).sent == ["svy", "svy"]
  {
    var who := Addresses.Print(Someone());
    var r := Request("svy", "satisfaction", "acme", who, "", "", 1.0, 0.0, 2.0);
    SomeoneParses();
    ReusedIdIsSentTwice(economy, r, r.(dispatchAt := 1.0, expiresAt := 9.0), Bus(who, {}));
  }

  /** What the rest of the system adds to the supply during a run. */
  function Outside(s: Store, steps: seq<Step>): real
    decreases |steps|
  {
    if steps == [] then 0.0
    else
      (if steps[0].Elsewhere? && Post(s.economy.book, steps[0].entry).error.None?
       then NetOf(steps[0].entry.op) else 0.0) + Outside(After(s, steps[0]), steps[1..])
  }

  ghost predicate Within(step: Step, owners: set<string>)
  {
    match step
    case Enqueued(r) => r.actor in owners
    case Elsewhere(e) => e.owner in owners
    case _ => true
  }

  lemma SubmitConserves(s: Store, a: Response, brokered: bool, owners: set<string>)
    requires COMMONS_WALLET in owners && (a.id in s.requests ==> s.requests[a.id].actor in owners)
    requires forall k :: k in s.requests ==> s.requests[k].id == k
    ensures Supply(Submit(s, a, brokered).economy.book, owners) == Supply(s.economy.book, owners)
  {
    if a.id in s.requests && s.requests[a.id].reward > 0.0 {
      var r := s.requests[a.id];
      TransferConserves(s.economy.book, COMMONS_WALLET, HoldId(a.id), r.reward, r.actor, owners);
    }
  }

  lemma StepConserves(s: Store, step: Step, owners: set<string>)
    requires Identified(s) && COMMONS_WALLET in owners && Within(step, owners)
    requires forall k :: k in s.requests ==> s.requests[k].actor in owners
    ensures Supply(After(s, step).economy.book, owners)
         == Supply(s.economy.book, owners)
            + (if step.Elsewhere? && Post(s.economy.book, step.entry).error.None? then NetOf(step.entry.op) else 0.0)
    ensures Identified(After(s, step))
    ensures forall k :: k in After(s, step).requests ==> After(s, step).requests[k].actor in owners
  {
    match step
    case Enqueued(r) =>
    case ListedPending(ids, cutoff) => TidyAllKeeps(s, ids, cutoff);
    case Fired(ids, cutoff, enough, bus) => FireKeeps(s, ids, cutoff, enough, bus);
    case Submitted(a, brokered) => SubmitConserves(s, a, brokered, owners);
    case Elsewhere(e) => PostMovesSupply(s.economy.book, e, owners);
  }

  /** Surveys only move credit: over any run at all the supply changes by what the
      rest of the system adds, and by nothing else. */
  lemma {:induction false} SurveysConserve(s: Store, steps: seq<Step>, owners: set<string>)
    requires Identified(s) && COMMONS_WALLET in owners
    requires forall k :: k in s.requests ==> s.requests[k].actor in owners
    requires forall step :: step in steps ==> Within(step, owners)
    ensures Supply(RunSteps(s, steps).economy.book, owners)
         == Supply(s.economy.book, owners) + Outside(s, steps)
    decreases |steps|
  {
    if steps != [] {
      StepConserves(s, steps[0], owners);
      SurveysConserve(After(s, steps[0]), steps[1..], owners);
    }
  }

  lemma {:induction false} ListingAfterTidy(s: Store, id: string, ids: seq<string>, cutoff: real,
                                            actor: Option<string>)
    requires id !in ids
    ensures Listing(Tidy(s, id, cutoff), ids, cutoff, actor) == Listing(s, ids, cutoff, actor)
  {
    if ids != [] { ListingAfterTidy(s, id, ids[1..], cutoff, actor); }
  }

  lemma ListingStep(s: Store, id: string, ids: seq<string>, cutoff: real, actor: Option<string>)
    ensures Listing(s, [id] + ids, cutoff, actor)
         == (if Listed(s, id, cutoff, actor) then [s.requests[id]] else []) + Listing(s, ids, cutoff, actor)
    ensures TidyAll(s, [id] + ids, cutoff) == TidyAll(Tidy(s, id, cutoff), ids, cutoff)
  {
    assert ([id] + ids)[1..] == ids;
  }

  /** One turn of the listing loop. */
  lemma ListingGoesOn(s: Store, ids: seq<string>, i: nat, cutoff: real, actor: Option<string>, out: seq<Request>)
    requires i < |ids| && Distinct(ids)
    ensures TidyAll(s, ids[i..], cutoff) == TidyAll(Tidy(s, ids[i], cutoff), ids[i + 1..], cutoff)
    ensures out + Listing(s, ids[i..], cutoff, actor)
         == (if Listed(s, ids[i], cutoff, actor) then out + [s.requests[ids[i]]] else out)
            + Listing(Tidy(s, ids[i], cutoff), ids[i + 1..], cutoff, actor)
  {
    var rest := ids[i + 1..];
    assert ids[i..] == [ids[i]] + rest;
    ListingAfterTidy(s, ids[i], rest, cutoff, actor);
    ListingStep(s, ids[i], rest, cutoff, actor);
    if Listed(s, ids[i], cutoff, actor) { Append(out, s.requests[ids[i]], Listing(s, rest, cutoff, actor)); }
  }

  lemma {:induction false} ListingIsFilter(s: Store, ids: seq<string>, cutoff: real, actor: Option<string>)
    requires forall k :: k in s.requests ==> s.requests[k].id == k
    ensures forall r :: (r in Listing(s, ids, cutoff, actor)
                         <==> r.id in ids && Listed(s, r.id, cutoff, actor) && s.requests[r.id] == r)
  {
    if ids != [] {
      ListingIsFilter(s, ids[1..], cutoff, actor);
      assert forall k :: k in ids <==> k == ids[0] || k in ids[1..];
    }
  }

  // ---- the queue object ----

  class SurveyQueue {
    const broker: BrokerFacade
    var queue: map<string, real>
    var requests: map<string, Request>
    var responses: map<string, Response>
    var index: set<string>
    var fired: set<string>
    var sent: seq<string>

    constructor (broker: BrokerFacade)
      ensures this.broker == broker && View() == EmptyStore(broker.View())
    {
      this.broker := broker;
      queue, requests, responses, index, fired, sent := map[], map[], map[], {}, {}, [];
    }

    function View(): Store
      reads this, broker, broker.bank
    {
      Store(queue, requests, responses, index, fired, sent, broker.View())
    }

    method EnqueueRequest(r: Request) returns (isNew: bool)
      modifies this
      ensures View() == Enqueue(old(View()), r)
      ensures isNew <==> View() != old(View())
    {
      if r.id in requests { return false; }
      requests := requests[r.id := r];
      queue := queue[r.id := r.dispatchAt];
      return true;
    }

    method AbandonRequest(id: string)
      modifies this
      ensures View() == Abandon(old(View()), id)
    {
      queue := queue - {id};
      fired := fired - {id};
      requests := requests - {id};
    }

    /** `ids` is what the sorted set answers to the range query. */
    method ListPending(ids: seq<string>, cutoff: real, includeFuture: bool, actor: Option<string>, limit: nat)
      returns (out: seq<Request>)
      requires IsPage(queue, if includeFuture then None else Some(cutoff), limit, ids)
      modifies this
      ensures View() == TidyAll(old(View()), ids, cutoff)
      ensures out == Listing(old(View()), ids, cutoff, actor)
    {
      assert Distinct(ids);
      out := [];
      for i := 0 to |ids|
        invariant TidyAll(old(View()), ids, cutoff) == TidyAll(View(), ids[i..], cutoff)
        invariant Listing(old(View()), ids, cutoff, actor) == out + Listing(View(), ids[i..], cutoff, actor)
      {
        ListingGoesOn(View(), ids, i, cutoff, actor, out);
        var found := LookAt(ids[i], cutoff, actor);
        if found.Some? { out := out + [found.value]; }
      }
    }

    /** One entry of the page: tidied away, filtered out, or listed. */
    method LookAt(id: string, cutoff: real, actor: Option<string>) returns (found: Option<Request>)
      modifies this
      ensures View() == Tidy(old(View()), id, cutoff)
      ensures found == if Listed(old(View()), id, cutoff, actor) then Some(old(requests)[id]) else None
    {
      if id !in requests {
        queue := queue - {id};
        return None;
      }
      if requests[id].expiresAt <= cutoff {
        AbandonRequest(id);
        return None;
      }
      if actor.Some? && actor.value != "" && requests[id].actor != actor.value { return None; }
      return Some(requests[id]);
    }

    /** Raises, with no result, if it has a bus and the source address is invalid. */
    method FireDueSurveys(ids: seq<string>, cutoff: real, maxDispatch: nat, bus: Option<Bus>)
      returns (done: Option<seq<Request>>)
      requires IsPage(queue, Some(cutoff), 2 * maxDispatch, ids)
      modifies this
      ensures View() == FireDue(old(View()), ids, cutoff, maxDispatch, bus)
      ensures var ready := ScanDue(old(View()), ids, cutoff, maxDispatch, []).ready;
        done == if bus.None? then Some(ready)
                  else if Addresses.Parse(bus.value.brokerAddress).Err? then None
                  else Some(Delivered(ready, bus.value.down))
    {
      var ready := CollectDue(ids, cutoff, maxDispatch);
      if bus == None { return Some(ready); }
      if Addresses.Parse(bus.value.brokerAddress).Err? { return None; }
      var dispatched := DeliverAll(ready, bus.value.down);
      return Some(dispatched);
    }

    method CollectDue(ids: seq<string>, cutoff: real, enough: nat) returns (ready: seq<Request>)
      modifies this
      ensures Scan(View(), ready) == ScanDue(old(View()), ids, cutoff, enough, [])
    {
      ready := [];
      for i := 0 to |ids|
        invariant ScanDue(old(View()), ids, cutoff, enough, [])
          == ScanDue(View(), ids[i..], cutoff, enough, ready)
      {
        var id := ids[i];
        assert ids[i..][1..] == ids[i + 1..];
        if id !in requests {
          queue := queue - {id};
        } else if requests[id].expiresAt <= cutoff {
          AbandonRequest(id);
        } else if id !in fired {
          ready := ready + [requests[id]];
          if |ready| >= enough { return; }
        }
      }
    }

    method DeliverAll(ready: seq<Request>, down: set<string>) returns (dispatched: seq<Request>)
      modifies this`fired, this`sent
      ensures View() == Deliver(old(View()), ready, down)
      ensures dispatched == Delivered(ready, down)
    {
      dispatched := [];
      for i := 0 to |ready|
        invariant Deliver(old(View()), ready, down) == Deliver(View(), ready[i..], down)
        invariant Delivered(ready, down) == dispatched + Delivered(ready[i..], down)
      {
        var r := ready[i];
        assert ready[i..][1..] == ready[i + 1..];
        if Addresses.Parse(r.actor).Err? { continue; }
        if r.id in down { continue; }
        Append(dispatched, r, Delivered(ready[i + 1..], down));
        sent := sent + [r.id];
        fired := fired + {r.id};
        dispatched := dispatched + [r];
      }
    }

    /** Hold in the commons, settle, credit the actor; a refusal is swallowed. */
    method PayReward(r: Request)
      modifies broker.bank
      ensures broker.bank.View() == Pay(old(broker.bank.View()), r)
    {
      if r.reward > 0.0 {
        ghost var es := Transfer(COMMONS_WALLET, HoldId(r.id), r.reward, r.actor);
        PostThree(broker.bank.View(), es[0], es[1], es[2]);
        PostTwo(Ledger.Post(broker.bank.View(), es[0]).book, es[1], es[2]);
        var error := broker.bank.Hold(COMMONS_WALLET, HoldId(r.id), r.reward);
        if error.Some? { return; }
        error := broker.bank.SettleAgainstHold(COMMONS_WALLET, HoldId(r.id), r.reward);
        if error.Some? { return; }
        error := broker.bank.Topup(r.actor, r.reward);
      }
    }

    method SubmitResponse(a: Response, brokered: bool) returns (isNew: bool)
      modifies this, broker`reputations, broker.bank
      ensures View() == Submit(old(View()), a, brokered)
      ensures isNew <==> a.id !in old(responses)
    {
      if a.id in responses { return false; }
      responses := responses[a.id := a];
      index := index + {a.id};
      queue := queue - {a.id};
      fired := fired - {a.id};
      if brokered && a.id in requests {
        var r := requests[a.id];
        PayReward(r);
        var rated := Reputation.ApplyCsat(ReputationFor(broker.View(), r.targetServer), a.score);
        broker.reputations := broker.reputations[rated.owner := rated];
      }
      return true;
    }
  }
}
