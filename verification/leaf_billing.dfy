/** Which compute leaf a dispatch is billed against, and who is paid for it. */
module LeafBilling {
  import opened Common
  import opened Pricing
  import opened ComputeProvider
  import opened Broker
  import opened Dispatch
  import opened CastGets
  import opened SendGets
  import opened Payments
  import Reputation

  /** An eligible leaf of the server's binding that no eligible leaf outranks under
      the server's own ranking; none exactly when no leaf is eligible. */
  ghost predicate RightLeaf(q: Request, s: Server, leaf: Option<MenuLeaf>)
  {
    match leaf
    case None => forall l :: !Eligible(s.computeBinding, q.leaves, l)
    case Some(b) =>
      && Eligible(s.computeBinding, q.leaves, b)
      && var cs := Candidates(s.computeBinding, q.leaves);
         cs != [] && forall l :: Eligible(s.computeBinding, q.leaves, l) ==>
           !Outranks()(Scored(l, Score(WeightsOf(s.computeRanking), map[], cs, l)),
                       Scored(b, Score(WeightsOf(s.computeRanking), map[], cs, b)))
  }

  lemma BoundLeafIsRight(q: Request, s: Server)
    ensures RightLeaf(q, s, BoundLeaf(q, s))
  {
    BestLeafIsBest(s.computeBinding, q.leaves, s.computeRanking, map[]);
  }

  /** No two listed servers share an id. */
  predicate OwnNames(servers: seq<Server>)
  {
    forall s, t :: s in servers && t in servers && s.serverId == t.serverId ==> s == t
  }

  /** Every decision made so far is right for its server, and so is every leaf that a
      held target is to be billed against. */
  ghost predicate RightSoFar(q: Request, p: Placing)
  {
    && (forall s :: s in q.servers && s.serverId in p.leafCache ==> RightLeaf(q, s, p.leafCache[s.serverId]))
    && (forall t :: t in p.held ==> p.held[t].server in q.servers && RightLeaf(q, p.held[t].server, p.held[t].leaf))
  }

  lemma PlaceOneIsRight(q: Request, p: Placing, target: string)
    requires OwnNames(q.servers) && RightSoFar(q, p)
    ensures RightSoFar(q, PlaceOne(q, p, target))
  {
    var found := ServerFor(q.servers, OrgOf(target));
    if found.Some? {
      ServerForListed(q.servers, OrgOf(target));
      BoundLeafIsRight(q, found.value);
    }
  }

  lemma {:induction false} PlaceIsRight(q: Request, p: Placing, targets: seq<string>)
    requires OwnNames(q.servers) && RightSoFar(q, p)
    ensures RightSoFar(q, Place(q, p, targets))
    decreases |targets|
  {
    if targets != [] && !p.aborted {
      PlaceOneIsRight(q, p, targets[0]);
      PlaceIsRight(q, PlaceOne(q, p, targets[0]), targets[1..]);
    }
  }

  /** Every target a broadcast holds for is bound to the right leaf of its server. */
  lemma HeldLeavesAreRight(log10: real -> real, q: Request, targets: seq<string>, e: Economy, delivery: Delivery)
    requires OwnNames(q.servers)
    ensures var held := CastGet(log10, q, targets, e, delivery).placing.held;
      forall t :: t in held ==> held[t].server in q.servers && RightLeaf(q, held[t].server, held[t].leaf)
  {
    PlaceIsRight(q, Placing(e.book, map[], [], [], map[], false), targets);
  }

  // ---- what a receipt charges ----

  /** The bill is the price of what was said at the tier and rate of the leaf, or
      small and free without one; the leaf's provider is credited with the compute
      share, or the server itself without one. */
  predicate BilledAt(log10: real -> real, r: Receipt, reputation: real, overage: real, a: Answer)
  {
    var c := r.charge;
    && r.bill == SettlePayment(log10, Inputs(c.server.baseRate, match c.leaf case None => Small case Some(l) => l.tier,
                                             a.responseChars, c.maxResponseChars, a.latencyMs,
                                             match c.leaf case None => 0.0 case Some(l) => l.ratePer1k,
                                             0, reputation, overage, Matched))
    && ComputePayee(c) == (match c.leaf
                           case None => c.server.serverId
                           case Some(l) => if l.providerId == "" then c.server.serverId else l.providerId)
    && r.fault == a.fault
  }

  lemma ReceiptIsBilled(log10: real -> real, e: Economy, c: Charge, a: Answer)
    ensures var rep := ReputationFor(e, c.server.serverId);
      BilledAt(log10, ReceiptFor(log10, e, c, a), rep.reputation, rep.avgOverage, a)
  {
  }

  /** Response number `i` is the first of its source. */
  predicate FirstWord(rs: seq<Response>, i: nat)
  {
    i < |rs| && forall j :: 0 <= j < i ==> rs[j].source != rs[i].source
  }

  /** The receipt is for the first response of a held target, at the leaf it is bound
      to and whatever record its server has by then. */
  ghost predicate BillsResponse(log10: real -> real, q: Request, held: map<string, Ctx>, rs: seq<Response>, r: Receipt,
                                i: nat)
  {
    && FirstWord(rs, i) && rs[i].source in held && r.charge == ChargeFor(q, rs[i].source, held[rs[i].source])
    && exists reputation, overage :: BilledAt(log10, r, reputation, overage, rs[i].answer)
  }

  ghost predicate AllBilled(log10: real -> real, q: Request, held: map<string, Ctx>, rs: seq<Response>,
                            receipts: seq<Receipt>)
  {
    forall r :: r in receipts ==> exists i :: BillsResponse(log10, q, held, rs, r, i)
  }

  lemma CollectOneIsBilled(log10: real -> real, q: Request, held: map<string, Ctx>, s: Collecting, rs: seq<Response>,
                           n: nat)
    requires n < |rs| && s.responded == Sources(rs[..n]) && AllBilled(log10, q, held, rs, s.receipts)
    ensures AllBilled(log10, q, held, rs, CollectOne(log10, q, held, s, rs[n]).receipts)
  {
    var x := rs[n];
    if x.source !in s.responded && x.source in held {
      var c := ChargeFor(q, x.source, held[x.source]);
      var r := ReceiptFor(log10, s.economy, c, x.answer);
      ReceiptIsBilled(log10, s.economy, c, x.answer);
      forall j | 0 <= j < n ensures rs[j].source != x.source { assert rs[j] in rs[..n]; }
      assert BillsResponse(log10, q, held, rs, r, n);
    }
  }

  lemma HeardOneMore(log10: real -> real, q: Request, held: map<string, Ctx>, s: Collecting, rs: seq<Response>, n: nat)
    requires n < |rs| && s.responded == Sources(rs[..n])
    ensures CollectOne(log10, q, held, s, rs[n]).responded == Sources(rs[..n + 1])
  {
    assert rs[..n + 1] == rs[..n] + [rs[n]];
    assert forall r :: r in rs[..n + 1] <==> r in rs[..n] || r == rs[n];
  }

  lemma {:induction false} CollectIsBilled(log10: real -> real, q: Request, held: map<string, Ctx>, s: Collecting,
                                           rs: seq<Response>, n: nat)
    requires n <= |rs| && s.responded == Sources(rs[..n]) && AllBilled(log10, q, held, rs, s.receipts)
    ensures AllBilled(log10, q, held, rs, Collect(log10, q, held, s, rs[n..]).receipts)
    decreases |rs| - n
  {
    if n < |rs| {
      CollectOneIsBilled(log10, q, held, s, rs, n);
      HeardOneMore(log10, q, held, s, rs, n);
      assert rs[n..][1..] == rs[n + 1..];
      CollectIsBilled(log10, q, held, CollectOne(log10, q, held, s, rs[n]), rs, n + 1);
    }
  }

  /** Every settlement of a broadcast is for the first answer of a held target, at the
      right leaf of the server that is billed: its tier prices the answer, its rate is
      the compute share, and its provider is who that share is credited to. */
  lemma CastGetBillsRightLeaf(log10: real -> real, q: Request, targets: seq<string>, e: Economy, rs: seq<Response>)
    requires OwnNames(q.servers)
    ensures var run := CastGet(log10, q, targets, e, Replies(rs));
      AllBilled(log10, q, run.placing.held, rs, run.receipts)
      && forall r :: r in run.receipts ==> r.charge.server in q.servers && RightLeaf(q, r.charge.server, r.charge.leaf)
  {
    HeldLeavesAreRight(log10, q, targets, e, Replies(rs));
    var p := Placed(q, e.book, targets);
    var s0 := Collecting(e.(book := p.book), {}, []);
    assert rs[..0] == [] && rs[0..] == rs;
    CollectIsBilled(log10, q, p.held, s0, rs, 0);
    var run := CastGet(log10, q, targets, e, Replies(rs));
    forall r | r in run.receipts ensures r.charge.server in q.servers && RightLeaf(q, r.charge.server, r.charge.leaf) {
      var i :| BillsResponse(log10, q, p.held, rs, r, i);
    }
  }

  /** The same for a single request, at the record its server had when it was sent and
      without any condition on names. */
  lemma SendGetBillsRightLeaf(log10: real -> real, q: Request, target: string, e: Economy, outcome: SendOutcome, r: Receipt)
    requires r in SendGet(log10, q, target, e, outcome).receipts
    ensures outcome.Answered? && r.charge.caller == q.source && r.charge.maxResponseChars == q.maxResponseChars
    ensures Some(r.charge.server) == FirstServerFor(q.servers, OrgOf(target)) && RightLeaf(q, r.charge.server, r.charge.leaf)
    ensures var rep := ReputationFor(e, r.charge.server.serverId);
      BilledAt(log10, r, rep.reputation, rep.avgOverage, outcome.answer)
  {
    var found := FirstServerFor(q.servers, OrgOf(target));
    if found.Some? && SendHeld(q, target, e.book) && outcome.Answered? {
      BoundLeafIsRight(q, found.value);
      SendGetUnfolds(log10, q, target, e, outcome, found.value);
      ReceiptIsBilled(log10, AfterHold(q, e, found.value), SendCharge(q, found.value), outcome.answer);
    }
  }
}
