/** What brokered dispatch is given and how it names, prices and charges a call.
    Addresses appear as their canonical URI, which is what their equality, their
    hash and the hold ids are made of. */
module Dispatch {
  import opened Common
  import opened Text
  import opened Ledger
  import opened Pricing
  import opened ComputeProvider
  import opened Broker
  import Reputation

  datatype Request = Request(
    source: string,
    messageId: string,
    promptChars: nat,
    maxResponseChars: int,
    servers: seq<Server>,
    leaves: seq<MenuLeaf>
  )

  /** The organisation is the first field of a canonical URI. */
  function OrgOf(uri: string): string { Split(uri, '.')[0] }

  function CastHoldId(messageId: string, target: string): string
  {
    "msg:" + messageId + ":t:" + target
  }

  function SendHoldId(messageId: string): string { "msg:" + messageId }

  lemma CastHoldIdInjective(messageId: string, a: string, b: string)
    requires CastHoldId(messageId, a) == CastHoldId(messageId, b)
    ensures a == b
  {
    var n := |"msg:" + messageId + ":t:"|;
    assert CastHoldId(messageId, a)[n..] == a && CastHoldId(messageId, b)[n..] == b;
  }

  /** A dictionary keyed by organisation: the last server listed wins. */
  function ServerFor(servers: seq<Server>, org: string): Option<Server>
  {
    if servers == [] then None else
      var later := ServerFor(servers[1..], org);
      if later.Some? then later else if servers[0].org == org then Some(servers[0]) else None
  }

  function BoundLeaf(q: Request, s: Server): Option<MenuLeaf>
  {
    BestLeaf(s.computeBinding, q.leaves, s.computeRanking, map[])
  }

  function HoldAmount(q: Request, s: Server): real
  {
    EstimateHold(s.baseRate, Small, q.promptChars, q.maxResponseChars)
  }

  datatype Ctx = Ctx(server: Server, leaf: Option<MenuLeaf>)

  function ChargeFor(q: Request, target: string, ctx: Ctx): Charge
  {
    Charge(q.source, CastHoldId(q.messageId, target), ctx.server, ctx.leaf, q.maxResponseChars)
  }

  predicate WellPriced(q: Request)
  {
    && (forall s :: s in q.servers ==> s.baseRate >= 0.0)
    && (forall l :: l in q.leaves ==> l.ratePer1k >= 0.0)
  }

  lemma BoundLeafListed(q: Request, s: Server)
    ensures var l := BoundLeaf(q, s); l.Some? ==> l.value in q.leaves
  {
    BestLeafIsBest(s.computeBinding, q.leaves, s.computeRanking, map[]);
  }

  lemma HoldAmountNonNegative(q: Request, s: Server)
    requires s.baseRate >= 0.0
    ensures HoldAmount(q, s) >= 0.0
  {
    Grows(s.baseRate, 0.0, TierMultiplier(Small));
    Grows(s.baseRate * TierMultiplier(Small), 0.0,
          (NonNeg(q.promptChars) + NonNeg(q.maxResponseChars)) as real);
  }

  function Pool(q: Request): set<string>
  {
    {q.source, BROKER_WALLET, COMMONS_WALLET} + (set s | s in q.servers :: s.serverId)
    + (set l | l in q.leaves :: l.providerId)
  }

  predicate SoundReceipts(receipts: seq<Receipt>)
  {
    forall r :: r in receipts ==> SoundSplit(r.bill)
  }

  /** Nobody has more or fewer open holds than before. */
  predicate SameHolds(b0: Book, b: Book, owner: string)
  {
    WalletOf(b, owner).holds == WalletOf(b0, owner).holds
  }

  // ---- what settlements issue ----

  /** What complete settlements issue: exactly the skipped negative server shares. */
  function Shortfalls(receipts: seq<Receipt>): real
  {
    if receipts == [] then 0.0 else
      var r := receipts[0];
      (if r.covered && r.bill.toServer < 0.0 then -r.bill.toServer else 0.0) + Shortfalls(receipts[1..])
  }

  lemma {:induction false} UninterruptedIssue(receipts: seq<Receipt>)
    requires SoundReceipts(receipts) && forall r :: r in receipts ==> r.fault.NoFault?
    ensures TotalIssue(receipts) == Shortfalls(receipts)
    ensures Shortfalls(receipts) == 0.0
      <==> forall r :: r in receipts && r.covered ==> r.bill.toServer >= 0.0
    ensures Shortfalls(receipts) >= 0.0
  {
    if receipts != [] {
      assert receipts == [receipts[0]] + receipts[1..];
      UninterruptedIssue(receipts[1..]);
      CompleteSettlementNet(receipts[0].charge, receipts[0].bill);
    }
  }

  // ---- what the caller can be billed ----

  /** Every bill of the engine is at most 1.65 times the tier ratio of the hold it
      is charged against. */
  lemma EngineBillBound(log10: real -> real, q: Request, e: Economy, target: string, ctx: Ctx, a: Answer)
    requires Reputation.IsLog10(log10) && ctx.server.baseRate >= 0.0
    ensures Bill(log10, e, ChargeFor(q, target, ctx), a).preTax
      <= 1.65 * (TierMultiplier(LeafTier(ctx.leaf)) / TierMultiplier(Small)) * HoldAmount(q, ctx.server)
  {
    DebitWithinBound(log10, InputsFor(e, ChargeFor(q, target, ctx), a), q.promptChars);
  }

  /** The terms on which a charge will be settled: the prompt has no part in them. */
  function TermsOf(e: Economy, c: Charge): Terms
  {
    var rep := ReputationFor(e, c.server.serverId);
    Terms(c.server.baseRate, LeafTier(c.leaf), LeafRate(c.leaf), 0, c.maxResponseChars, rep.reputation, rep.avgOverage)
  }

  lemma BillWithinHold(log10: real -> real, q: Request, e: Economy, target: string, ctx: Ctx, a: Answer)
    requires Reputation.IsLog10(log10) && ctx.server.baseRate >= 0.0
    requires AlwaysCovered(log10, TermsOf(e, ChargeFor(q, target, ctx)).(promptChars := q.promptChars))
    ensures Bill(log10, e, ChargeFor(q, target, ctx), a).preTax <= HoldAmount(q, ctx.server)
  {
    var terms := TermsOf(e, ChargeFor(q, target, ctx)).(promptChars := q.promptChars);
    assert InputsFor(e, ChargeFor(q, target, ctx), a) == Answered(terms, a.responseChars, a.latencyMs);
    assert PreTax(log10, Answered(terms, a.responseChars, a.latencyMs)) <= EngineHold(terms);
  }

  /** A response is settled, not refunded, whatever its length and latency, when
      the server's terms satisfy the exact cover condition. */
  lemma CoveredResponsesSettle(log10: real -> real, q: Request, e: Economy, target: string, ctx: Ctx, a: Answer)
    requires Reputation.IsLog10(log10) && ctx.server.baseRate >= 0.0 && a.fault.NoFault?
    requires var c := ChargeFor(q, target, ctx);
      IsOpen(e.book, c.caller, c.holdId)
      && WalletOf(e.book, c.caller).holds[c.holdId] == HoldAmount(q, ctx.server)
    requires CoverCondition(TermsOf(e, ChargeFor(q, target, ctx)).(promptChars := q.promptChars))
    ensures !Settled(log10, e, ChargeFor(q, target, ctx), a).raised
  {
    var c := ChargeFor(q, target, ctx);
    HoldCoversExactly(log10, TermsOf(e, ChargeFor(q, target, ctx)).(promptChars := q.promptChars));
    BillWithinHold(log10, q, e, target, ctx, a);
    PreTaxFactors(log10, InputsFor(e, c, a));
    PostedSettlement(e.book, c, Bill(log10, e, c, a), a.fault);
  }
}
