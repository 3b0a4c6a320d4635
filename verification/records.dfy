/** What whole dispatches leave on record: every server's calls are counted, each
    once, and nobody else's. */
module Records {
  import opened Ledger
  import opened Broker
  import opened Dispatch
  import opened CastGets
  import opened SendGets
  import Reputation

  predicate CameThrough(r: Receipt, id: string)
  {
    r.covered && r.fault.NoFault? && r.charge.server.serverId == id
  }

  /** The calls of a server that came through. */
  function CallsOf(receipts: seq<Receipt>, id: string): nat
  {
    if receipts == [] then 0 else (if CameThrough(receipts[0], id) then 1 else 0) + CallsOf(receipts[1..], id)
  }

  lemma {:induction false} CallsAppend(receipts: seq<Receipt>, r: Receipt, id: string)
    ensures CallsOf(receipts + [r], id) == CallsOf(receipts, id) + (if CameThrough(r, id) then 1 else 0)
  {
    if receipts == [] {
      assert [r][1..] == [];
    } else {
      assert (receipts + [r])[1..] == receipts[1..] + [r];
      CallsAppend(receipts[1..], r, id);
    }
  }

  /** The record of `id` counts so many accepted calls more, no failure and no survey
      answer; with none more it is untouched. */
  predicate Counted(e0: Economy, e: Economy, id: string, calls: nat)
  {
    var r0, r := ReputationFor(e0, id), ReputationFor(e, id);
    && r.completedTotal == r0.completedTotal + calls && r.completedAccepted == r0.completedAccepted + calls
    && r.failed == r0.failed && r.csat == r0.csat && r.csatSamples == r0.csatSamples
    && r0.reputation <= r.reputation <= r0.reputation + 0.005 * (calls as real)
    && (calls == 0 ==> r == r0)
  }

  lemma SettlementCounts(log10: real -> real, e0: Economy, e: Economy, c: Charge, a: Answer, id: string, calls: nat)
    requires Reputation.IsLog10(log10) && Priced(c) && IsOpen(e.book, c.caller, c.holdId)
    requires Counted(e0, e, id, calls) && ReputationFor(e, id).reputation <= 1.0
    ensures var r := ReceiptFor(log10, e, c, a);
      Counted(e0, SettleOrRefund(log10, e, c, a), id, calls + (if CameThrough(r, id) then 1 else 0))
    ensures ReputationFor(SettleOrRefund(log10, e, c, a), id).reputation <= 1.0
  {
    SettlementRecords(log10, e, c, a);
  }

  ghost predicate Collected(e0: Economy, s: Collecting, id: string)
  {
    Counted(e0, s.economy, id, CallsOf(s.receipts, id)) && ReputationFor(s.economy, id).reputation <= 1.0
  }

  lemma CollectOneCounts(log10: real -> real, q: Request, e0: Economy, b0: Book, held: map<string, Ctx>, s: Collecting,
                         r: Response, id: string)
    requires Reputation.IsLog10(log10) && WellPriced(q) && KnownContexts(q, held)
    requires Outstanding(q, b0, s.economy.book, held.Keys, held.Keys - s.responded) && Collected(e0, s, id)
    ensures Collected(e0, CollectOne(log10, q, held, s, r), id)
  {
    if r.source !in s.responded && r.source in held {
      var c := ChargeFor(q, r.source, held[r.source]);
      ServerForListed(q.servers, OrgOf(r.source));
      assert c.holdId in HoldIds(q, held.Keys - s.responded);
      SettlementCounts(log10, e0, s.economy, c, r.answer, id, CallsOf(s.receipts, id));
      CallsAppend(s.receipts, ReceiptFor(log10, s.economy, c, r.answer), id);
    }
  }

  lemma {:induction false} CollectCounts(log10: real -> real, q: Request, e0: Economy, e: Economy, held: map<string, Ctx>,
                                         s: Collecting, rs: seq<Response>, id: string, owners: set<string>)
    requires Reputation.IsLog10(log10) && WellPriced(q) && KnownContexts(q, held) && Pool(q) <= owners
    requires CollectingInv(q, e, held, s, owners) && Collected(e0, s, id)
    ensures Collected(e0, Collect(log10, q, held, s, rs), id)
    decreases |rs|
  {
    if rs != [] {
      CollectOneCounts(log10, q, e0, e.book, held, s, rs[0], id);
      CollectOneKeeps(log10, q, e, held, s, rs[0], owners);
      CollectCounts(log10, q, e0, e, held, CollectOne(log10, q, held, s, rs[0]), rs[1..], id, owners);
    }
  }

  lemma RepliesRecord(log10: real -> real, q: Request, e: Economy, p: Placing, rs: seq<Response>, owners: set<string>,
                      id: string)
    requires Reputation.IsLog10(log10) && WellPriced(q) && Pool(q) <= owners
    requires PlacingInv(q, e.book, p) && Supply(p.book, owners) == Supply(e.book, owners)
    requires ReputationFor(e, id).reputation <= 1.0
    ensures Collected(e, Collect(log10, q, p.held, Collecting(e.(book := p.book), {}, []), rs), id)
  {
    var s0 := Collecting(e.(book := p.book), {}, []);
    assert p.held.Keys - s0.responded == p.held.Keys;
    CollectCounts(log10, q, e, e, p.held, s0, rs, id, owners);
  }

  lemma BroadcastRecords(log10: real -> real, q: Request, targets: seq<string>, e: Economy, delivery: Delivery,
                         owners: set<string>, id: string, run: CastRun)
    requires Reputation.IsLog10(log10) && WellPriced(q) && Audited(e.book) && Pool(q) <= owners
    requires FreshIds(q, e.book, targets) && ReputationFor(e, id).reputation <= 1.0
    requires run == CastGet(log10, q, targets, e, delivery)
    ensures Counted(e, run.economy, id, CallsOf(run.receipts, id))
  {
    PlacedKeeps(q, e.book, targets, owners);
    var p := Placed(q, e.book, targets);
    if p.deliverable != [] && delivery.Replies? { RepliesRecord(log10, q, e, p, delivery.responses, owners, id); }
  }

  /** After a broadcast the record of each server counts exactly its covered and
      undisturbed settlements as accepted calls. */
  lemma CastGetRecords(log10: real -> real, q: Request, targets: seq<string>, e: Economy, delivery: Delivery,
                       owners: set<string>, id: string)
    requires Reputation.IsLog10(log10) && WellPriced(q) && Audited(e.book) && Pool(q) <= owners
    requires FreshIds(q, e.book, targets) && ReputationFor(e, id).reputation <= 1.0
    ensures var run := CastGet(log10, q, targets, e, delivery);
      Counted(e, run.economy, id, CallsOf(run.receipts, id))
  {
    BroadcastRecords(log10, q, targets, e, delivery, owners, id, CastGet(log10, q, targets, e, delivery));
  }

  /** The same for a single request. */
  lemma SendGetRecords(log10: real -> real, q: Request, target: string, e: Economy, outcome: SendOutcome, id: string)
    requires Reputation.IsLog10(log10) && WellPriced(q) && !IsOpen(e.book, q.source, SendHoldId(q.messageId))
    requires ReputationFor(e, id).reputation <= 1.0
    ensures var run := SendGet(log10, q, target, e, outcome);
      Counted(e, run.economy, id, CallsOf(run.receipts, id))
  {
    FirstServerListed(q.servers, OrgOf(target));
    var found := FirstServerFor(q.servers, OrgOf(target));
    if found.Some? && SendHeld(q, target, e.book) && outcome.Answered? {
      var e1, c, a := AfterHold(q, e, found.value), SendCharge(q, found.value), outcome.answer;
      SendGetUnfolds(log10, q, target, e, outcome, found.value);
      BoundLeafListed(q, found.value);
      FreshHold(e.book, q.source, SendHoldId(q.messageId), HoldAmount(q, found.value));
      SettlementCounts(log10, e, e1, c, a, id, 0);
      CallsAppend([], ReceiptFor(log10, e1, c, a), id);
      assert [] + [ReceiptFor(log10, e1, c, a)] == [ReceiptFor(log10, e1, c, a)];
    }
  }
}
