/** Settlements: one debit against the caller's hold, up to four credits, and the
    reputation update that follows. */
module Broker {
  import opened Common
  import opened Wallets
  import opened Ledger
  import opened Pricing
  import opened ComputeProvider
  import Reputation

  const BROKER_WALLET: string := "__broker__"
  const COMMONS_WALLET: string := "__commons__"

  datatype Server = Server(
    serverId: string,
    org: string,
    specialties: seq<string>,
    integrations: seq<string>,
    baseRate: real,
    computeBinding: string,
    computeRanking: RankBy
  )

  /** Everything a settlement reads and writes. */
  datatype Economy = Economy(book: Book, reputations: map<string, Reputation.Entry>)

  function ReputationFor(e: Economy, owner: string): Reputation.Entry
  {
    if owner in e.reputations then e.reputations[owner] else Reputation.Default(owner)
  }

  /** What is fixed when a call is dispatched. */
  datatype Charge = Charge(
    caller: string, holdId: string, server: Server, leaf: Option<MenuLeaf>, maxResponseChars: int)

  /** What the responder said, and how the settlement machinery fared meanwhile:
      `RaisesAfter(n)` stands for any infrastructure exception after `n` of the
      settlement's wallet writes. */
  datatype Fault = NoFault | RaisesAfter(writes: nat)
  datatype Answer = Answer(responseChars: nat, latencyMs: real, fault: Fault)

  function LeafRate(leaf: Option<MenuLeaf>): real { if leaf.Some? then leaf.value.ratePer1k else 0.0 }
  function LeafTier(leaf: Option<MenuLeaf>): Tier { if leaf.Some? then leaf.value.tier else Small }

  function InputsFor(e: Economy, c: Charge, a: Answer): Inputs
  {
    var rep := ReputationFor(e, c.server.serverId);
    Inputs(c.server.baseRate, LeafTier(c.leaf), a.responseChars, c.maxResponseChars, a.latencyMs,
           LeafRate(c.leaf), 0, rep.reputation, rep.avgOverage, Matched)
  }

  function Bill(log10: real -> real, e: Economy, c: Charge, a: Answer): Settlement
  {
    SettlePayment(log10, InputsFor(e, c, a))
  }

  /** The compute slice goes to the leaf's provider, or to the server itself. */
  function ComputePayee(c: Charge): string
  {
    if c.leaf.Some? && c.leaf.value.providerId != "" then c.leaf.value.providerId else c.server.serverId
  }

  function Payout(owner: string, share: real): seq<Entry>
  {
    if share > 0.0 then [Entry(owner, Credit(share))] else []
  }

  function Payouts(c: Charge, s: Settlement): seq<Entry>
  {
    Payout(c.server.serverId, s.toServer) + Payout(ComputePayee(c), s.toCompute)
    + Payout(BROKER_WALLET, s.toBroker) + Payout(COMMONS_WALLET, s.toCommons)
  }

  function SettleEntries(c: Charge, s: Settlement): seq<Entry>
  {
    [Entry(c.caller, Release(c.holdId, s.preTax))] + Payouts(c, s)
  }

  /** The entries that are reached before the fault strikes. */
  function Reached(entries: seq<Entry>, f: Fault): seq<Entry>
  {
    if f.RaisesAfter? && f.writes < |entries| then entries[..f.writes] else entries
  }

  datatype Settling = Settling(economy: Economy, raised: bool)

  /** One settled call as the reputation ledger sees it. */
  datatype Call = Call(outcome: Reputation.Outcome, latencyMs: real, responseChars: int, maxResponseChars: int)

  /** The entry after a call; the rolling overage takes part only in calls with a
      budget. */
  function AfterCall(r: Reputation.Entry, call: Call): Reputation.Entry
  {
    var after := Reputation.ApplyOutcome(r, call.outcome, call.latencyMs);
    if call.maxResponseChars > 0
    then after.(avgOverage := UpdateAvgOverage(after.avgOverage, call.responseChars, call.maxResponseChars))
    else after
  }

  function UpdatedReputation(e: Economy, c: Charge, a: Answer): Reputation.Entry
  {
    AfterCall(ReputationFor(e, c.server.serverId),
             Call(Reputation.Accepted, a.latencyMs, a.responseChars, c.maxResponseChars))
  }

  function Settled(log10: real -> real, e: Economy, c: Charge, a: Answer): Settling
  {
    var p := PostAll(e.book, Reached(SettleEntries(c, Bill(log10, e, c, a)), a.fault));
    if p.error.Some? || a.fault.RaisesAfter? then Settling(e.(book := p.book), true)
    else Settling(Economy(p.book, e.reputations[c.server.serverId := UpdatedReputation(e, c, a)]), false)
  }

  /** The engine's treatment of a response: settle, and if that raises, refund and
      ignore a failing refund. */
  function SettleOrRefund(log10: real -> real, e: Economy, c: Charge, a: Answer): Economy
  {
    var s := Settled(log10, e, c, a);
    if s.raised then s.economy.(book := Post(s.economy.book, Entry(c.caller, Refund(c.holdId))).book)
    else s.economy
  }

  // ---- conservation ----

  predicate Priced(c: Charge)
  {
    c.server.baseRate >= 0.0 && (c.leaf.Some? ==> c.leaf.value.ratePer1k >= 0.0)
  }

  lemma {:induction false} NetConcat(a: seq<Entry>, b: seq<Entry>)
    ensures Net(a + b) == Net(a) + Net(b)
  {
    if a == [] {
      assert a + b == b;
    } else {
      assert (a + b)[1..] == a[1..] + b;
      NetConcat(a[1..], b);
    }
  }

  lemma NetPayout(owner: string, share: real)
    ensures Net(Payout(owner, share)) == if share > 0.0 then share else 0.0
  {
    if share > 0.0 { assert Payout(owner, share)[1..] == []; }
  }

  /** A sound split: the shares add up and only the server's can be negative. */
  predicate SoundSplit(s: Settlement)
  {
    SharesAddUp(s) && s.preTax >= 0.0 && s.toCompute >= 0.0 && s.toBroker >= 0.0 && s.toCommons >= 0.0
  }

  lemma BillIsSound(log10: real -> real, e: Economy, c: Charge, a: Answer)
    requires Reputation.IsLog10(log10) && Priced(c)
    ensures SoundSplit(Bill(log10, e, c, a))
  {
    SharesSumToPreTax(log10, InputsFor(e, c, a));
  }

  /** A complete settlement moves no credit in or out of the economy, except that
      a negative server share is skipped while the others are still paid: then
      exactly that much new credit appears. */
  lemma CompleteSettlementNet(c: Charge, s: Settlement)
    requires SoundSplit(s)
    ensures Net(SettleEntries(c, s)) == if s.toServer >= 0.0 then 0.0 else -s.toServer
  {
    var p1, p2 := Payout(c.server.serverId, s.toServer), Payout(ComputePayee(c), s.toCompute);
    var p3, p4 := Payout(BROKER_WALLET, s.toBroker), Payout(COMMONS_WALLET, s.toCommons);
    NetPayout(c.server.serverId, s.toServer);
    NetPayout(ComputePayee(c), s.toCompute);
    NetPayout(BROKER_WALLET, s.toBroker);
    NetPayout(COMMONS_WALLET, s.toCommons);
    NetConcat(p1, p2);
    NetConcat(p1 + p2, p3);
    NetConcat(p1 + p2 + p3, p4);
    assert SettleEntries(c, s)[1..] == Payouts(c, s);
  }

  function Parties(c: Charge): set<string>
  {
    {c.caller, c.server.serverId, ComputePayee(c), BROKER_WALLET, COMMONS_WALLET}
  }

  /** One attempted settlement: was the debit within the hold (and its
      tolerance), and how far did the payments get? */
  datatype Receipt = Receipt(charge: Charge, bill: Settlement, covered: bool, fault: Fault)

  predicate Covers(b: Book, c: Charge, s: Settlement)
  {
    IsOpen(b, c.caller, c.holdId) && s.preTax <= WalletOf(b, c.caller).holds[c.holdId] + TOLERANCE
  }

  function ReceiptFor(log10: real -> real, e: Economy, c: Charge, a: Answer): Receipt
  {
    var s := Bill(log10, e, c, a);
    Receipt(c, s, Covers(e.book, c, s), a.fault)
  }

  /** The credit that an attempted settlement brings into existence. */
  function Issue(r: Receipt): real
  {
    if r.covered then Net(Reached(SettleEntries(r.charge, r.bill), r.fault)) else 0.0
  }

  function TotalIssue(receipts: seq<Receipt>): real
  {
    if receipts == [] then 0.0 else Issue(receipts[0]) + TotalIssue(receipts[1..])
  }

  lemma PayoutsAreCredits(c: Charge, s: Settlement)
    ensures forall e :: e in Payouts(c, s) ==> IsCredit(e.op) && e.owner in Parties(c)
    ensures forall e :: e in Payouts(c, s) ==> e.op.Credit? && e.op.amount > 0.0
  {
  }

  lemma {:induction false} PostedSettlement(b: Book, c: Charge, s: Settlement, f: Fault)
    requires IsOpen(b, c.caller, c.holdId) && s.preTax >= 0.0
    ensures var entries := Reached(SettleEntries(c, s), f);
      var p := PostAll(b, entries);
      var before := WalletOf(b, c.caller);
      var covered := Covers(b, c, s);
      && (!covered || entries == [] ==> p.book == b)
      && (!covered && entries != [] ==> p.error == Some(InsufficientFunds))
      && (covered && entries != [] ==>
            && p.error.None?
            && WalletOf(p.book, c.caller).holds == before.holds - {c.holdId}
            && (forall o :: o != c.caller ==> WalletOf(p.book, o).holds == WalletOf(b, o).holds))
      && (forall o, id :: Opens(p.book, o, id) == Opens(b, o, id))
  {
    var entries := Reached(SettleEntries(c, s), f);
    if entries != [] {
      var release := entries[0];
      assert release == Entry(c.caller, Release(c.holdId, s.preTax));
      forall o, id ensures Opens(Post(b, release).book, o, id) == Opens(b, o, id) {
        PostOpens(b, release, o, id);
      }
      PayoutsAreCredits(c, s);
      var credits := entries[1..];
      forall e | e in credits ensures IsCredit(e.op) {
        assert e in SettleEntries(c, s)[1..];
        assert SettleEntries(c, s)[1..] == Payouts(c, s);
      }
      CreditsAccepted(Post(b, release).book, credits);
    }
  }

  lemma SettledHolds(log10: real -> real, e: Economy, c: Charge, a: Answer)
    requires Reputation.IsLog10(log10) && Priced(c)
    requires IsOpen(e.book, c.caller, c.holdId)
    ensures var after := SettleOrRefund(log10, e, c, a);
      && WalletOf(after.book, c.caller).holds == WalletOf(e.book, c.caller).holds - {c.holdId}
      && (forall o :: o != c.caller ==> WalletOf(after.book, o).holds == WalletOf(e.book, o).holds)
      && (forall o, id :: Opens(after.book, o, id) == Opens(e.book, o, id))
  {
    var s := Bill(log10, e, c, a);
    BillIsSound(log10, e, c, a);
    var p := PostAll(e.book, Reached(SettleEntries(c, s), a.fault));
    PostedSettlement(e.book, c, s, a.fault);
    var refund := Entry(c.caller, Refund(c.holdId));
    forall o, id ensures Opens(Post(p.book, refund).book, o, id) == Opens(p.book, o, id) {
      PostOpens(p.book, refund, o, id);
    }
  }

  lemma SettledSupply(log10: real -> real, e: Economy, c: Charge, a: Answer, owners: set<string>)
    requires Reputation.IsLog10(log10) && Priced(c)
    requires IsOpen(e.book, c.caller, c.holdId) && Parties(c) <= owners
    ensures Supply(SettleOrRefund(log10, e, c, a).book, owners)
         == Supply(e.book, owners) + Issue(ReceiptFor(log10, e, c, a))
  {
    var s := Bill(log10, e, c, a);
    BillIsSound(log10, e, c, a);
    var entries := Reached(SettleEntries(c, s), a.fault);
    var p := PostAll(e.book, entries);
    PostedSettlement(e.book, c, s, a.fault);
    PostMovesSupply(p.book, Entry(c.caller, Refund(c.holdId)), owners);
    if p.error.None? {
      PayoutsAreCredits(c, s);
      PostAllMovesSupply(e.book, entries, owners);
    }
  }

  lemma SettledAudit(log10: real -> real, e: Economy, c: Charge, a: Answer)
    requires Audited(e.book)
    ensures Audited(SettleOrRefund(log10, e, c, a).book)
  {
    var entries := Reached(SettleEntries(c, Bill(log10, e, c, a)), a.fault);
    PostAllKeepsAudited(e.book, entries);
    PostKeepsAudited(PostAll(e.book, entries).book, Entry(c.caller, Refund(c.holdId)));
  }

  /** One response, whatever goes wrong: afterwards the hold is closed and the
      caller's other holds, everyone else's holds and the record of holds ever
      opened are as before; and the supply has moved by the receipt's issue. */
  lemma SettleOrRefundEffect(log10: real -> real, e: Economy, c: Charge, a: Answer, owners: set<string>)
    requires Reputation.IsLog10(log10) && Priced(c) && Audited(e.book)
    requires IsOpen(e.book, c.caller, c.holdId) && Parties(c) <= owners
    ensures var after := SettleOrRefund(log10, e, c, a);
      && Audited(after.book)
      && WalletOf(after.book, c.caller).holds == WalletOf(e.book, c.caller).holds - {c.holdId}
      && (forall o :: o != c.caller ==> WalletOf(after.book, o).holds == WalletOf(e.book, o).holds)
      && (forall o, id :: Opens(after.book, o, id) == Opens(e.book, o, id))
      && Supply(after.book, owners) == Supply(e.book, owners) + Issue(ReceiptFor(log10, e, c, a))
  {
    SettledAudit(log10, e, c, a);
    SettledHolds(log10, e, c, a);
    SettledSupply(log10, e, c, a, owners);
  }

  /** A bill above the hold costs the caller nothing: no balance anywhere changes
      and the whole hold is available again. */
  lemma UncoveredIsRefunded(log10: real -> real, e: Economy, c: Charge, a: Answer)
    requires Reputation.IsLog10(log10) && Priced(c)
    requires IsOpen(e.book, c.caller, c.holdId) && !Covers(e.book, c, Bill(log10, e, c, a))
    ensures var after := SettleOrRefund(log10, e, c, a);
      var before := WalletOf(e.book, c.caller);
      && Settled(log10, e, c, a).raised
      && after.reputations == e.reputations
      && (forall o :: WalletOf(after.book, o).balance == WalletOf(e.book, o).balance)
      && (forall o :: o != c.caller ==> WalletOf(after.book, o) == WalletOf(e.book, o))
      && WalletOf(after.book, c.caller).Available() == before.Available() + before.holds[c.holdId]
  {
    BillIsSound(log10, e, c, a);
    PostedSettlement(e.book, c, Bill(log10, e, c, a), a.fault);
  }

  // ---- what a settlement leaves on record ----

  /** One accepted call more: a two-hundredth of reputation up to 1, the latency
      added, the rolling overage a twentieth of the way to this answer's share of the
      budget if it had one, and nothing else. */
  ghost predicate OneCallMore(r0: Reputation.Entry, r: Reputation.Entry, latencyMs: real, chars: nat, budget: int)
  {
    && r.completedTotal == r0.completedTotal + 1 && r.completedAccepted == r0.completedAccepted + 1
    && r.reputation == (if r0.reputation <= 0.995 then r0.reputation + 0.005 else 1.0)
    && r.sumLatencyMs == (if latencyMs > 0.0 then r0.sumLatencyMs + latencyMs else r0.sumLatencyMs)
    && (budget <= 0 ==> r.avgOverage == r0.avgOverage)
    && (budget > 0 ==> 20.0 * (r.avgOverage - r0.avgOverage) == (chars as real) / (budget as real) - r0.avgOverage)
    && r.owner == r0.owner && r.failed == r0.failed && r.csat == r0.csat && r.csatSamples == r0.csatSamples
  }

  /** The record in force is the stored one; one that nobody has written yet starts in
      the middle, on budget, with nothing done. */
  lemma RecordInForce(e: Economy, owner: string)
    ensures owner in e.reputations ==> ReputationFor(e, owner) == e.reputations[owner]
    ensures owner !in e.reputations ==>
      var r := ReputationFor(e, owner);
      && r.owner == owner && r.reputation == 0.5 && r.avgOverage == 1.0 && r.csat == 0.5
      && r.completedTotal == r.completedAccepted == r.failed == r.csatSamples == 0 && r.sumLatencyMs == 0.0
  {
  }

  /** A settlement that comes through, and no other, adds one accepted call to the
      record of its server, and to no other record; it comes through exactly when the
      bill is covered and nothing fails. */
  lemma SettlementRecords(log10: real -> real, e: Economy, c: Charge, a: Answer)
    requires Reputation.IsLog10(log10) && Priced(c) && IsOpen(e.book, c.caller, c.holdId)
    ensures var after := SettleOrRefund(log10, e, c, a).reputations;
      var r := ReceiptFor(log10, e, c, a);
      var id := c.server.serverId;
      && (forall o :: o != id ==> (o in after <==> o in e.reputations) && (o in after ==> after[o] == e.reputations[o]))
      && (r.covered && r.fault.NoFault? ==>
            id in after && OneCallMore(ReputationFor(e, id), after[id], a.latencyMs, a.responseChars, c.maxResponseChars))
      && (!r.covered || r.fault.RaisesAfter? ==> after == e.reputations)
  {
    BillIsSound(log10, e, c, a);
    PostedSettlement(e.book, c, Bill(log10, e, c, a), a.fault);
  }

  // ---- an actor's record over many calls ----

  function RecordAll(r: Reputation.Entry, calls: seq<Call>): Reputation.Entry
    decreases |calls|
  {
    if calls == [] then r else RecordAll(AfterCall(r, calls[0]), calls[1..])
  }

  function Budgeted(calls: seq<Call>): nat
  {
    if calls == [] then 0 else (if calls[0].maxResponseChars > 0 then 1 else 0) + Budgeted(calls[1..])
  }

  predicate OverageWithin(call: Call, lo: real, hi: real)
  {
    call.maxResponseChars > 0 ==>
      lo <= (NonNeg(call.responseChars) as real) / (call.maxResponseChars as real) <= hi
  }

  /** Over any sequence of calls the record stays sound and counts every call once,
      the survey score is untouched, and the rolling overage never leaves the range
      of its start and of the ratios of the calls that had a budget. */
  lemma {:induction false} RecordsStaySound(r: Reputation.Entry, calls: seq<Call>, lo: real, hi: real)
    requires Reputation.Sound(r) && lo <= r.avgOverage <= hi
    requires forall i :: 0 <= i < |calls| ==> OverageWithin(calls[i], lo, hi)
    ensures var after := RecordAll(r, calls);
      && Reputation.Sound(after) && lo <= after.avgOverage <= hi
      && after.completedTotal + after.failed == r.completedTotal + r.failed + |calls|
      && after.csat == r.csat && after.csatSamples == r.csatSamples
      && (Budgeted(calls) == 0 ==> after.avgOverage == r.avgOverage)
    decreases |calls|
  {
    if calls != [] {
      var call := calls[0];
      assert OverageWithin(call, lo, hi);
      if call.maxResponseChars > 0 {
        AvgOverageIsAverage(r.avgOverage, call.responseChars, call.maxResponseChars);
      }
      assert forall i :: 0 <= i < |calls[1..]| ==> calls[1..][i] == calls[i + 1];
      RecordsStaySound(AfterCall(r, call), calls[1..], lo, hi);
    }
  }

  // ---- credits one after the other ----

  /** The credits of `entries` were made one write each, counting from `writes`,
      until the machinery failed, if it did. */
  ghost predicate PaidUpTo(b0: Book, b: Book, entries: seq<Entry>, f: Fault, writes: nat, raised: bool, written: nat)
  {
    && raised == (f.RaisesAfter? && writes <= f.writes < writes + |entries|)
    && b == PostAll(b0, if raised then entries[..f.writes - writes] else entries).book
    && (!raised ==> written == writes + |entries|)
  }

  predicate AllCredits(entries: seq<Entry>) { forall e :: e in entries ==> IsCredit(e.op) }

  lemma PaidShort(b0: Book, b: Book, first: seq<Entry>, second: seq<Entry>, f: Fault, writes: nat, written: nat)
    requires PaidUpTo(b0, b, first, f, writes, true, written)
    ensures PaidUpTo(b0, b, first + second, f, writes, true, written)
  {
    assert (first + second)[..f.writes - writes] == first[..f.writes - writes];
  }

  lemma PaidThen(b0: Book, b1: Book, b: Book, first: seq<Entry>, second: seq<Entry>, f: Fault, writes: nat,
                 middle: nat, raised: bool, written: nat)
    requires AllCredits(first) && PaidUpTo(b0, b1, first, f, writes, false, middle)
    requires PaidUpTo(b1, b, second, f, middle, raised, written)
    ensures PaidUpTo(b0, b, first + second, f, writes, raised, written)
  {
    CreditsAccepted(b0, first);
    if raised {
      var n := f.writes - middle;
      assert (first + second)[..f.writes - writes] == first + second[..n];
      PostAllSplit(b0, first, second[..n]);
    } else {
      PostAllSplit(b0, first, second);
    }
  }

  lemma ReleaseRefused(b: Book, c: Charge, s: Settlement, f: Fault)
    requires f != RaisesAfter(0) && Post(b, Entry(c.caller, Release(c.holdId, s.preTax))).error.Some?
    ensures var p := PostAll(b, Reached(SettleEntries(c, s), f)); p.error.Some? && p.book == b
  {
    var entries := Reached(SettleEntries(c, s), f);
    assert entries[0] == Entry(c.caller, Release(c.holdId, s.preTax));
  }

  lemma ReleasedAndPaid(b0: Book, b1: Book, b: Book, c: Charge, s: Settlement, f: Fault, raised: bool, written: nat)
    requires f != RaisesAfter(0)
    requires Post(b0, Entry(c.caller, Release(c.holdId, s.preTax))) == Posting(b1, None)
    requires PaidUpTo(b1, b, Payouts(c, s), f, 1, raised, written)
    ensures var entries := SettleEntries(c, s);
      var p := PostAll(b0, Reached(entries, f));
      b == p.book && p.error.None? && raised == (f.RaisesAfter? && f.writes < |entries|)
  {
    var credits := Payouts(c, s);
    var paid := if raised then credits[..f.writes - 1] else credits;
    var release := Entry(c.caller, Release(c.holdId, s.preTax));
    assert Reached(SettleEntries(c, s), f) == [release] + paid;
    assert ([release] + paid)[1..] == paid;
    PayoutsAreCredits(c, s);
    forall e | e in paid ensures IsCredit(e.op) { assert e in credits; }
    CreditsAccepted(b1, paid);
  }

  // ---- the broker object ----

  class BrokerFacade {
    const bank: Bank
    var reputations: map<string, Reputation.Entry>

    constructor (bank: Bank)
      ensures this.bank == bank && reputations == map[]
    {
      this.bank, reputations := bank, map[];
    }

    function View(): Economy
      reads this, bank
    {
      Economy(bank.View(), reputations)
    }

    /** Credit one share if it is positive, unless the machinery fails first. */
    method PayShare(owner: string, share: real, fault: Fault, writes: nat) returns (raised: bool, written: nat)
      modifies bank
      ensures PaidUpTo(old(bank.View()), bank.View(), Payout(owner, share), fault, writes, raised, written)
    {
      if share > 0.0 {
        if fault == RaisesAfter(writes) { return true, writes; }
        assert Payout(owner, share)[1..] == [];
        var refused := bank.Topup(owner, share);
        return false, writes + 1;
      }
      return false, writes;
    }

    method PayServerAndProvider(c: Charge, s: Settlement, fault: Fault, writes: nat)
      returns (raised: bool, written: nat)
      modifies bank
      ensures PaidUpTo(old(bank.View()), bank.View(),
                       Payout(c.server.serverId, s.toServer) + Payout(ComputePayee(c), s.toCompute),
                       fault, writes, raised, written)
    {
      ghost var b0 := bank.View();
      ghost var p1, p2 := Payout(c.server.serverId, s.toServer), Payout(ComputePayee(c), s.toCompute);
      raised, written := PayShare(c.server.serverId, s.toServer, fault, writes);
      if raised {
        PaidShort(b0, bank.View(), p1, p2, fault, writes, written);
        return;
      }
      ghost var b1, w1 := bank.View(), written;
      raised, written := PayShare(ComputePayee(c), s.toCompute, fault, written);
      PaidThen(b0, b1, bank.View(), p1, p2, fault, writes, w1, raised, written);
    }

    method PayBrokerAndCommons(s: Settlement, fault: Fault, writes: nat) returns (raised: bool, written: nat)
      modifies bank
      ensures PaidUpTo(old(bank.View()), bank.View(),
                       Payout(BROKER_WALLET, s.toBroker) + Payout(COMMONS_WALLET, s.toCommons),
                       fault, writes, raised, written)
    {
      ghost var b0 := bank.View();
      ghost var p1, p2 := Payout(BROKER_WALLET, s.toBroker), Payout(COMMONS_WALLET, s.toCommons);
      raised, written := PayShare(BROKER_WALLET, s.toBroker, fault, writes);
      if raised {
        PaidShort(b0, bank.View(), p1, p2, fault, writes, written);
        return;
      }
      ghost var b1, w1 := bank.View(), written;
      raised, written := PayShare(COMMONS_WALLET, s.toCommons, fault, written);
      PaidThen(b0, b1, bank.View(), p1, p2, fault, writes, w1, raised, written);
    }

    method PayAll(c: Charge, s: Settlement, fault: Fault, writes: nat) returns (raised: bool, written: nat)
      modifies bank
      ensures PaidUpTo(old(bank.View()), bank.View(), Payouts(c, s), fault, writes, raised, written)
    {
      ghost var b0 := bank.View();
      ghost var first := Payout(c.server.serverId, s.toServer) + Payout(ComputePayee(c), s.toCompute);
      ghost var second := Payout(BROKER_WALLET, s.toBroker) + Payout(COMMONS_WALLET, s.toCommons);
      assert Payouts(c, s) == first + second;
      raised, written := PayServerAndProvider(c, s, fault, writes);
      if raised {
        PaidShort(b0, bank.View(), first, second, fault, writes, written);
        return;
      }
      ghost var b1, w1 := bank.View(), written;
      raised, written := PayBrokerAndCommons(s, fault, written);
      PaidThen(b0, b1, bank.View(), first, second, fault, writes, w1, raised, written);
    }

    /** Release the hold, then credit the shares that are positive, in this order. */
    method Settle(c: Charge, s: Settlement, fault: Fault) returns (raised: bool)
      modifies bank
      ensures var entries := SettleEntries(c, s);
        var p := PostAll(old(bank.View()), Reached(entries, fault));
        bank.View() == p.book
        && raised == (p.error.Some? || (fault.RaisesAfter? && fault.writes < |entries|))
    {
      if fault == RaisesAfter(0) { return true; }
      ghost var start := bank.View();
      var error := bank.SettleAgainstHold(c.caller, c.holdId, s.preTax);
      if error.Some? {
        ReleaseRefused(start, c, s, fault);
        return true;
      }
      ghost var released := bank.View();
      var written;
      raised, written := PayAll(c, s, fault, 1);
      ReleasedAndPaid(start, released, bank.View(), c, s, fault, raised, written);
    }

    method RecordOutcome(owner: string, call: Call)
      modifies this`reputations
      ensures reputations == old(reputations)[owner := AfterCall(ReputationFor(old(View()), owner), call)]
    {
      var current := if owner in reputations then reputations[owner] else Reputation.Default(owner);
      var updated := Reputation.ApplyOutcome(current, call.outcome, call.latencyMs);
      if call.maxResponseChars > 0 {
        var overage := UpdateAvgOverage(updated.avgOverage, call.responseChars, call.maxResponseChars);
        updated := updated.(avgOverage := overage);
      }
      reputations := reputations[owner := updated];
    }

    method CalculateAndSettle(log10: real -> real, c: Charge, a: Answer) returns (raised: bool)
      modifies this`reputations, bank
      ensures Settling(View(), raised) == Settled(log10, old(View()), c, a)
    {
      var settlement := SettlePayment(log10, InputsFor(View(), c, a));
      raised := Settle(c, settlement, a.fault);
      if raised { return; }
      if a.fault.RaisesAfter? { return true; }
      RecordOutcome(c.server.serverId, Call(Reputation.Accepted, a.latencyMs, a.responseChars, c.maxResponseChars));
    }
  }
}
