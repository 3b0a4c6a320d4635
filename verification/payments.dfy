/** Who is paid what: the balances after a whole dispatch, owner by owner. */
module Payments {
  import opened Wallets
  import opened Ledger
  import opened Pricing
  import opened Broker
  import opened Dispatch
  import opened CastGets
  import opened SendGets
  import Reputation

  /** What a sequence of accepted postings does to one owner's balance. */
  function Flow(entries: seq<Entry>, o: string): real
  {
    if entries == [] then 0.0
    else (if entries[0].owner == o then NetOf(entries[0].op) else 0.0) + Flow(entries[1..], o)
  }

  lemma {:induction false} PostAllPays(b: Book, entries: seq<Entry>, o: string)
    requires PostAll(b, entries).error.None?
    ensures WalletOf(PostAll(b, entries).book, o).balance == WalletOf(b, o).balance + Flow(entries, o)
    decreases |entries|
  {
    if entries != [] { PostAllPays(Post(b, entries[0]).book, entries[1..], o); }
  }

  lemma {:induction false} FlowConcat(a: seq<Entry>, b: seq<Entry>, o: string)
    ensures Flow(a + b, o) == Flow(a, o) + Flow(b, o)
  {
    if a == [] {
      assert a + b == b;
    } else {
      assert (a + b)[1..] == a[1..] + b;
      FlowConcat(a[1..], b, o);
    }
  }

  function Paid(payee: string, share: real, o: string): real
  {
    if o == payee && share > 0.0 then share else 0.0
  }

  lemma PayoutFlow(payee: string, share: real, o: string)
    ensures Flow(Payout(payee, share), o) == Paid(payee, share, o)
  {
    if share > 0.0 { assert Payout(payee, share)[1..] == []; }
  }

  /** One owner's part of a settlement, in every role it plays: the caller pays the
      bill; the server, the provider of the leaf, the broker and the commons each
      receive their share if it is positive. */
  function PartOf(r: Receipt, o: string): real
  {
    if !r.covered then 0.0
    else
      (if o == r.charge.caller then -r.bill.preTax else 0.0)
      + Paid(r.charge.server.serverId, r.bill.toServer, o)
      + Paid(ComputePayee(r.charge), r.bill.toCompute, o)
      + Paid(BROKER_WALLET, r.bill.toBroker, o)
      + Paid(COMMONS_WALLET, r.bill.toCommons, o)
  }

  lemma SettlementFlow(c: Charge, s: Settlement, o: string)
    ensures Flow(SettleEntries(c, s), o) == PartOf(Receipt(c, s, true, NoFault), o)
  {
    var p1, p2 := Payout(c.server.serverId, s.toServer), Payout(ComputePayee(c), s.toCompute);
    var p3, p4 := Payout(BROKER_WALLET, s.toBroker), Payout(COMMONS_WALLET, s.toCommons);
    PayoutFlow(c.server.serverId, s.toServer, o);
    PayoutFlow(ComputePayee(c), s.toCompute, o);
    PayoutFlow(BROKER_WALLET, s.toBroker, o);
    PayoutFlow(COMMONS_WALLET, s.toCommons, o);
    FlowConcat(p1, p2, o);
    FlowConcat(p1 + p2, p3, o);
    FlowConcat(p1 + p2 + p3, p4, o);
    assert SettleEntries(c, s)[1..] == Payouts(c, s);
  }

  /** A refund, accepted or ignored, moves no balance. */
  lemma RefundMovesNothing(b: Book, owner: string, id: string, o: string)
    ensures WalletOf(Post(b, Entry(owner, Refund(id))).book, o).balance == WalletOf(b, o).balance
  {
  }

  lemma SettlementCredits(b: Book, c: Charge, s: Settlement, o: string)
    requires IsOpen(b, c.caller, c.holdId) && s.preTax >= 0.0
    ensures WalletOf(PostAll(b, SettleEntries(c, s)).book, o).balance
         == WalletOf(b, o).balance + PartOf(Receipt(c, s, Covers(b, c, s), NoFault), o)
  {
    PostedSettlement(b, c, s, NoFault);
    if Covers(b, c, s) {
      PostAllPays(b, SettleEntries(c, s), o);
      SettlementFlow(c, s, o);
    }
  }

  /** One settlement attempt pays everybody exactly their part. */
  lemma SettlementPays(log10: real -> real, e: Economy, c: Charge, a: Answer, o: string)
    requires Reputation.IsLog10(log10) && Priced(c) && IsOpen(e.book, c.caller, c.holdId) && a.fault.NoFault?
    ensures WalletOf(SettleOrRefund(log10, e, c, a).book, o).balance
         == WalletOf(e.book, o).balance + PartOf(ReceiptFor(log10, e, c, a), o)
  {
    var s := Bill(log10, e, c, a);
    BillIsSound(log10, e, c, a);
    SettlementCredits(e.book, c, s, o);
    RefundMovesNothing(PostAll(e.book, SettleEntries(c, s)).book, c.caller, c.holdId, o);
  }

  function TotalPart(receipts: seq<Receipt>, o: string): real
  {
    if receipts == [] then 0.0 else PartOf(receipts[0], o) + TotalPart(receipts[1..], o)
  }

  lemma {:induction false} TotalPartAppend(receipts: seq<Receipt>, r: Receipt, o: string)
    ensures TotalPart(receipts + [r], o) == TotalPart(receipts, o) + PartOf(r, o)
  {
    if receipts == [] {
      assert [r][1..] == [];
    } else {
      assert (receipts + [r])[1..] == receipts[1..] + [r];
      TotalPartAppend(receipts[1..], r, o);
    }
  }

  // ---- broadcasts ----

  lemma HoldMovesNothing(b: Book, owner: string, id: string, amount: real, o: string)
    ensures WalletOf(Post(b, Entry(owner, Hold(id, amount))).book, o).balance == WalletOf(b, o).balance
  {
  }

  lemma OnePlacingMovesNothing(q: Request, p: Placing, target: string, o: string)
    ensures WalletOf(PlaceOne(q, p, target).book, o).balance == WalletOf(p.book, o).balance
  {
    var found := ServerFor(q.servers, OrgOf(target));
    if found.Some? {
      HoldMovesNothing(p.book, q.source, CastHoldId(q.messageId, target), HoldAmount(q, found.value), o);
    }
  }

  lemma {:induction false} PlacingMovesNothing(q: Request, p: Placing, targets: seq<string>, o: string)
    ensures WalletOf(Place(q, p, targets).book, o).balance == WalletOf(p.book, o).balance
    decreases |targets|
  {
    if targets != [] && !p.aborted {
      OnePlacingMovesNothing(q, p, targets[0], o);
      PlacingMovesNothing(q, PlaceOne(q, p, targets[0]), targets[1..], o);
    }
  }

  lemma {:induction false} SweepMovesNothing(q: Request, b: Book, order: seq<string>, responded: set<string>, o: string)
    ensures WalletOf(Sweep(q, b, order, responded), o).balance == WalletOf(b, o).balance
    decreases |order|
  {
    if order != [] {
      var refund := Entry(q.source, Refund(CastHoldId(q.messageId, order[0])));
      RefundMovesNothing(b, q.source, CastHoldId(q.messageId, order[0]), o);
      SweepMovesNothing(q, if order[0] in responded then b else Post(b, refund).book, order[1..], responded, o);
    }
  }

  lemma {:induction false} CollectExtends(log10: real -> real, q: Request, held: map<string, Ctx>, s: Collecting,
                                          rs: seq<Response>)
    ensures s.receipts <= Collect(log10, q, held, s, rs).receipts
    decreases |rs|
  {
    if rs != [] { CollectExtends(log10, q, held, CollectOne(log10, q, held, s, rs[0]), rs[1..]); }
  }

  lemma CollectOnePays(log10: real -> real, q: Request, e0: Economy, held: map<string, Ctx>, s: Collecting,
                       r: Response, owners: set<string>, o: string)
    requires Reputation.IsLog10(log10) && WellPriced(q) && KnownContexts(q, held)
    requires CollectingInv(q, e0, held, s, owners)
    requires forall x :: x in CollectOne(log10, q, held, s, r).receipts ==> x.fault.NoFault?
    ensures var after := CollectOne(log10, q, held, s, r);
      WalletOf(after.economy.book, o).balance - TotalPart(after.receipts, o)
        == WalletOf(s.economy.book, o).balance - TotalPart(s.receipts, o)
  {
    if r.source !in s.responded && r.source in held {
      var c := ChargeFor(q, r.source, held[r.source]);
      var receipt := ReceiptFor(log10, s.economy, c, r.answer);
      assert c.holdId in HoldIds(q, held.Keys - s.responded);
      assert receipt in s.receipts + [receipt];
      ServerForListed(q.servers, OrgOf(r.source));
      SettlementPays(log10, s.economy, c, r.answer, o);
      TotalPartAppend(s.receipts, receipt, o);
    }
  }

  lemma {:induction false} CollectPays(log10: real -> real, q: Request, e0: Economy, held: map<string, Ctx>,
                                       s: Collecting, rs: seq<Response>, owners: set<string>, o: string)
    requires Reputation.IsLog10(log10) && WellPriced(q) && KnownContexts(q, held) && Pool(q) <= owners
    requires CollectingInv(q, e0, held, s, owners)
    requires forall x :: x in Collect(log10, q, held, s, rs).receipts ==> x.fault.NoFault?
    ensures var after := Collect(log10, q, held, s, rs);
      WalletOf(after.economy.book, o).balance - TotalPart(after.receipts, o)
        == WalletOf(s.economy.book, o).balance - TotalPart(s.receipts, o)
    decreases |rs|
  {
    if rs != [] {
      var next := CollectOne(log10, q, held, s, rs[0]);
      CollectExtends(log10, q, held, next, rs[1..]);
      assert forall x :: x in next.receipts ==> x in Collect(log10, q, held, next, rs[1..]).receipts;
      CollectOnePays(log10, q, e0, held, s, rs[0], owners, o);
      CollectOneKeeps(log10, q, e0, held, s, rs[0], owners);
      CollectPays(log10, q, e0, held, next, rs[1..], owners, o);
    }
  }

  lemma RepliesPay(log10: real -> real, q: Request, e: Economy, p: Placing, rs: seq<Response>, owners: set<string>,
                   o: string)
    requires Reputation.IsLog10(log10) && WellPriced(q) && Pool(q) <= owners
    requires PlacingInv(q, e.book, p) && Supply(p.book, owners) == Supply(e.book, owners)
    requires var s := Collect(log10, q, p.held, Collecting(e.(book := p.book), {}, []), rs);
      forall r :: r in s.receipts ==> r.fault.NoFault?
    ensures var s := Collect(log10, q, p.held, Collecting(e.(book := p.book), {}, []), rs);
      WalletOf(Sweep(q, s.economy.book, p.order, s.responded), o).balance
        == WalletOf(p.book, o).balance + TotalPart(s.receipts, o)
  {
    var s0 := Collecting(e.(book := p.book), {}, []);
    assert p.held.Keys - s0.responded == p.held.Keys;
    CollectPays(log10, q, e, p.held, s0, rs, owners, o);
    var s := Collect(log10, q, p.held, s0, rs);
    SweepMovesNothing(q, s.economy.book, p.order, s.responded, o);
  }

  /** A broadcast pays every wallet owner exactly the sum of its parts in the
      settlements that were covered, in all its roles; nothing else moves. */
  lemma CastGetPays(log10: real -> real, q: Request, targets: seq<string>, e: Economy, delivery: Delivery,
                    owners: set<string>, o: string)
    requires Reputation.IsLog10(log10) && WellPriced(q) && Audited(e.book) && Pool(q) <= owners
    requires FreshIds(q, e.book, targets)
    requires forall r :: r in CastGet(log10, q, targets, e, delivery).receipts ==> r.fault.NoFault?
    ensures var run := CastGet(log10, q, targets, e, delivery);
      WalletOf(run.economy.book, o).balance == WalletOf(e.book, o).balance + TotalPart(run.receipts, o)
  {
    var start := Placing(e.book, map[], [], [], map[], false);
    PlacingMovesNothing(q, start, targets, o);
    PlacedKeeps(q, e.book, targets, owners);
    var p := Placed(q, e.book, targets);
    if p.deliverable != [] {
      match delivery
      case BusRaised => SweepMovesNothing(q, p.book, p.order, {}, o);
      case Replies(rs) => RepliesPay(log10, q, e, p, rs, owners, o);
    }
  }

  /** The same for a single request. */
  lemma SendGetPays(log10: real -> real, q: Request, target: string, e: Economy, outcome: SendOutcome, o: string)
    requires Reputation.IsLog10(log10) && WellPriced(q) && !IsOpen(e.book, q.source, SendHoldId(q.messageId))
    requires outcome.Answered? ==> outcome.answer.fault.NoFault?
    ensures var run := SendGet(log10, q, target, e, outcome);
      WalletOf(run.economy.book, o).balance == WalletOf(e.book, o).balance + TotalPart(run.receipts, o)
  {
    FirstServerListed(q.servers, OrgOf(target));
    var found := FirstServerFor(q.servers, OrgOf(target));
    if found.Some? {
      var server := found.value;
      var id := SendHoldId(q.messageId);
      HoldMovesNothing(e.book, q.source, id, HoldAmount(q, server), o);
      if SendHeld(q, target, e.book) {
        var e1 := AfterHold(q, e, server);
        SendGetUnfolds(log10, q, target, e, outcome, server);
        match outcome
        case Answered(a) =>
          var c := SendCharge(q, server);
          BoundLeafListed(q, server);
          FreshHold(e.book, q.source, id, HoldAmount(q, server));
          SettlementPays(log10, e1, c, a, o);
          TotalPartAppend([], ReceiptFor(log10, e1, c, a), o);
          assert [] + [ReceiptFor(log10, e1, c, a)] == [ReceiptFor(log10, e1, c, a)];
        case _ => RefundMovesNothing(e1.book, q.source, id, o);
      }
    }
  }

  // ---- who is billed ----

  function Sources(rs: seq<Response>): set<string> { set r | r in rs :: r.source }

  function BilledIds(receipts: seq<Receipt>): set<string> { set r | r in receipts :: r.charge.holdId }

  /** Each receipt charges the caller at the server of a held target, and there is
      one for every held target that responded. */
  ghost predicate BillsResponders(q: Request, held: map<string, Ctx>, receipts: seq<Receipt>, responded: set<string>)
  {
    && (forall r :: r in receipts ==> exists t :: t in held && r.charge == ChargeFor(q, t, held[t]))
    && BilledIds(receipts) == HoldIds(q, held.Keys * responded)
    && |receipts| == |held.Keys * responded|
  }

  lemma BillsOneMore(q: Request, held: map<string, Ctx>, receipts: seq<Receipt>, responded: set<string>,
                     target: string, receipt: Receipt)
    requires BillsResponders(q, held, receipts, responded) && target in held && target !in responded
    requires receipt.charge == ChargeFor(q, target, held[target])
    ensures BillsResponders(q, held, receipts + [receipt], responded + {target})
  {
    var before, now := held.Keys * responded, held.Keys * (responded + {target});
    assert now == before + {target};
    assert BilledIds(receipts + [receipt]) == BilledIds(receipts) + {receipt.charge.holdId};
    assert HoldIds(q, now) == HoldIds(q, before) + {CastHoldId(q.messageId, target)};
  }

  lemma CollectOneBills(log10: real -> real, q: Request, held: map<string, Ctx>, s: Collecting, r: Response)
    requires BillsResponders(q, held, s.receipts, s.responded)
    ensures var after := CollectOne(log10, q, held, s, r);
      BillsResponders(q, held, after.receipts, after.responded)
  {
    if r.source in s.responded {
      assert s.responded + {r.source} == s.responded;
    } else if r.source !in held {
      assert held.Keys * (s.responded + {r.source}) == held.Keys * s.responded;
    } else {
      var receipt := ReceiptFor(log10, s.economy, ChargeFor(q, r.source, held[r.source]), r.answer);
      BillsOneMore(q, held, s.receipts, s.responded, r.source, receipt);
    }
  }

  /** Every held target that answers is billed once, at its own server, however
      often it answers; strangers and silent targets are not. */
  lemma {:induction false} CollectBills(log10: real -> real, q: Request, held: map<string, Ctx>, s: Collecting,
                                        rs: seq<Response>)
    requires BillsResponders(q, held, s.receipts, s.responded)
    ensures var after := Collect(log10, q, held, s, rs);
      BillsResponders(q, held, after.receipts, after.responded)
    decreases |rs|
  {
    if rs != [] {
      CollectOneBills(log10, q, held, s, rs[0]);
      CollectBills(log10, q, held, CollectOne(log10, q, held, s, rs[0]), rs[1..]);
    }
  }

  lemma FirstSource(rs: seq<Response>)
    requires rs != []
    ensures Sources(rs) == {rs[0].source} + Sources(rs[1..])
  {
    assert forall r :: r in rs <==> r == rs[0] || r in rs[1..];
  }

  lemma {:induction false} CollectHears(log10: real -> real, q: Request, held: map<string, Ctx>, s: Collecting,
                                        rs: seq<Response>)
    ensures Collect(log10, q, held, s, rs).responded == s.responded + Sources(rs)
    decreases |rs|
  {
    if rs != [] {
      var next := CollectOne(log10, q, held, s, rs[0]);
      CollectHears(log10, q, held, next, rs[1..]);
      FirstSource(rs);
      assert next.responded == s.responded + {rs[0].source};
    }
  }

  /** A broadcast whose replies came in bills exactly the held targets among the
      responders, each once. */
  lemma CastGetBills(log10: real -> real, q: Request, targets: seq<string>, e: Economy, rs: seq<Response>)
    ensures var run := CastGet(log10, q, targets, e, Replies(rs));
      var held := run.placing.held;
      run.result.Returned? && run.placing.deliverable != [] ==>
        BillsResponders(q, held, run.receipts, Sources(rs))
  {
    var p := Placed(q, e.book, targets);
    var s0 := Collecting(e.(book := p.book), {}, []);
    assert p.held.Keys * s0.responded == {};
    CollectBills(log10, q, p.held, s0, rs);
    CollectHears(log10, q, p.held, s0, rs);
    assert {} + Sources(rs) == Sources(rs);
  }
}
