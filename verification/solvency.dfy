/** Which calls are settled, and which of them conserve credit, told from the terms
    of the call alone, before anybody has answered. */
module Solvency {
  import opened Common
  import opened Text
  import opened Wallets
  import opened Ledger
  import opened Pricing
  import opened ComputeProvider
  import opened Broker
  import opened Dispatch
  import opened SendGets
  import Reputation

  // ---- the price of an answer ----

  /** The price of one character of an unhurried answer. */
  function PeakPrice(q: Terms): real
  {
    q.baseRate * TierMultiplier(q.leafTier) * PeakMultiplier(q.reputation, q.avgOverage)
  }

  /** A suspiciously fast answer is paid half. */
  function Pace(q: Terms, latencyMs: real): real
  {
    if latencyMs < 0.3 * ExpectedLatencyMs(q.leafTier) then 0.5 else 1.0
  }

  lemma PeakPriceNonNegative(q: Terms)
    requires q.baseRate >= 0.0
    ensures PeakPrice(q) >= 0.0
  {
    Positive(ReputationMultiplier(q.reputation), VerbosityMultiplier(q.avgOverage));
    Grows(q.baseRate, 0.0, TierMultiplier(q.leafTier));
    Grows(q.baseRate * TierMultiplier(q.leafTier), 0.0, PeakMultiplier(q.reputation, q.avgOverage));
  }

  lemma AnswerBehaviour(log10: real -> real, q: Terms, responseChars: int, latencyMs: real)
    requires Reputation.IsLog10(log10)
    ensures Behaviour(log10, Pricing.Answered(q, responseChars, latencyMs))
         == PeakMultiplier(q.reputation, q.avgOverage) * Pace(q, latencyMs)
  {
    RetentionAtLeastOne(log10, 0);
  }

  lemma Reassociate(a: real, b: real, c: real)
    ensures a * (b * c) == (a * b) * c
  {
  }

  lemma AnswerPrice(log10: real -> real, q: Terms, responseChars: int, latencyMs: real)
    requires Reputation.IsLog10(log10) && q.baseRate >= 0.0
    ensures var i := Pricing.Answered(q, responseChars, latencyMs);
      var price := PeakPrice(q) * Pace(q, latencyMs);
      UnitPrice(log10, i) == price && PreTax(log10, i) == price * (EffectiveChars(responseChars, q.maxResponseChars) as real)
  {
    AnswerBehaviour(log10, q, responseChars, latencyMs);
    PreTaxFactors(log10, Pricing.Answered(q, responseChars, latencyMs));
    Reassociate(q.baseRate * TierMultiplier(q.leafTier), PeakMultiplier(q.reputation, q.avgOverage), Pace(q, latencyMs));
  }

  // ---- when an answer issues credit ----

  /** Is the answer refunded, or settled without a shortfall? */
  predicate Harmless(log10: real -> real, q: Terms, hold: real, responseChars: nat, latencyMs: real)
    requires Reputation.IsLog10(log10)
  {
    var i := Pricing.Answered(q, responseChars, latencyMs);
    PreTax(log10, i) <= hold + TOLERANCE ==> SettlePayment(log10, i).toServer >= 0.0
  }

  /** The call allows no answer, the half price of a character pays for the leaf, or
      not even one such character is within the hold. */
  predicate Solvent(q: Terms, hold: real)
  {
    q.maxResponseChars <= 0 || 475.0 * PeakPrice(q) >= q.leafRate || PeakPrice(q) / 2.0 > hold + TOLERANCE
  }

  lemma ShareByPrice(log10: real -> real, q: Terms, responseChars: nat, latencyMs: real)
    requires Reputation.IsLog10(log10) && q.baseRate >= 0.0 && q.leafRate >= 0.0
    ensures SettlePayment(log10, Pricing.Answered(q, responseChars, latencyMs)).toServer >= 0.0
      <==> EffectiveChars(responseChars, q.maxResponseChars) == 0
           || 950.0 * (PeakPrice(q) * Pace(q, latencyMs)) >= q.leafRate
  {
    ServerShareNonNegative(log10, Pricing.Answered(q, responseChars, latencyMs));
    AnswerPrice(log10, q, responseChars, latencyMs);
  }

  lemma OneCharacterIsCheapest(peak: real, pace: real, chars: real, leaf: real, hold: real)
    requires peak >= 0.0 && (pace == 0.5 || pace == 1.0) && chars >= 1.0
    requires 475.0 * peak >= leaf || peak / 2.0 > hold + TOLERANCE
    ensures peak * pace * chars <= hold + TOLERANCE ==> 950.0 * (peak * pace) >= leaf
  {
    Grows(peak * pace, 1.0, chars);
  }

  lemma HarmlessWhenSolvent(log10: real -> real, q: Terms, hold: real, responseChars: nat, latencyMs: real)
    requires Reputation.IsLog10(log10) && q.baseRate >= 0.0 && q.leafRate >= 0.0 && Solvent(q, hold)
    ensures Harmless(log10, q, hold, responseChars, latencyMs)
  {
    var chars := EffectiveChars(responseChars, q.maxResponseChars);
    ShareByPrice(log10, q, responseChars, latencyMs);
    AnswerPrice(log10, q, responseChars, latencyMs);
    PeakPriceNonNegative(q);
    if chars > 0 { OneCharacterIsCheapest(PeakPrice(q), Pace(q, latencyMs), chars as real, q.leafRate, hold); }
  }

  lemma HastyCharacter(log10: real -> real, q: Terms, hold: real)
    requires Reputation.IsLog10(log10) && q.baseRate >= 0.0 && q.leafRate >= 0.0 && !Solvent(q, hold)
    ensures !Harmless(log10, q, hold, 1, 0.0)
  {
    AnswerPrice(log10, q, 1, 0.0);
    ShareByPrice(log10, q, 1, 0.0);
  }

  /** No answer can issue credit exactly when the terms are solvent; otherwise one
      character said too fast does. */
  lemma HarmlessExactly(log10: real -> real, q: Terms, hold: real)
    requires Reputation.IsLog10(log10) && q.baseRate >= 0.0 && q.leafRate >= 0.0
    ensures (forall n: nat, latencyMs: real :: Harmless(log10, q, hold, n, latencyMs)) <==> Solvent(q, hold)
  {
    if Solvent(q, hold) {
      forall n: nat, latencyMs: real ensures Harmless(log10, q, hold, n, latencyMs) {
        HarmlessWhenSolvent(log10, q, hold, n, latencyMs);
      }
    } else {
      HastyCharacter(log10, q, hold);
    }
  }

  predicate HoldIs(e: Economy, c: Charge, hold: real)
  {
    IsOpen(e.book, c.caller, c.holdId) && WalletOf(e.book, c.caller).holds[c.holdId] == hold
  }

  lemma SettlementIssues(log10: real -> real, e: Economy, c: Charge, a: Answer, hold: real, owners: set<string>)
    requires Reputation.IsLog10(log10) && Priced(c) && HoldIs(e, c, hold) && Parties(c) <= owners && a.fault.NoFault?
    ensures Supply(SettleOrRefund(log10, e, c, a).book, owners) == Supply(e.book, owners)
      <==> Harmless(log10, TermsOf(e, c), hold, a.responseChars, a.latencyMs)
  {
    var bill := Bill(log10, e, c, a);
    assert InputsFor(e, c, a) == Pricing.Answered(TermsOf(e, c), a.responseChars, a.latencyMs);
    SettledSupply(log10, e, c, a, owners);
    BillIsSound(log10, e, c, a);
    CompleteSettlementNet(c, bill);
  }

  /** Once a call is held for, credit is conserved whatever the responder says and
      however fast exactly when its terms are solvent. */
  lemma SettlementConservesExactly(log10: real -> real, e: Economy, c: Charge, hold: real, owners: set<string>)
    requires Reputation.IsLog10(log10) && Priced(c) && HoldIs(e, c, hold) && Parties(c) <= owners
    ensures (forall a: Answer :: a.fault.NoFault? ==>
               Supply(SettleOrRefund(log10, e, c, a).book, owners) == Supply(e.book, owners))
      <==> Solvent(TermsOf(e, c), hold)
  {
    forall a: Answer | a.fault.NoFault?
      ensures Supply(SettleOrRefund(log10, e, c, a).book, owners) == Supply(e.book, owners)
        <==> Harmless(log10, TermsOf(e, c), hold, a.responseChars, a.latencyMs)
    {
      SettlementIssues(log10, e, c, a, hold, owners);
    }
    if Solvent(TermsOf(e, c), hold) {
      forall a: Answer | a.fault.NoFault?
        ensures Supply(SettleOrRefund(log10, e, c, a).book, owners) == Supply(e.book, owners)
      {
        HarmlessWhenSolvent(log10, TermsOf(e, c), hold, a.responseChars, a.latencyMs);
      }
    } else {
      HastyCharacter(log10, TermsOf(e, c), hold);
      var a := Answer(1, 0.0, NoFault);
      assert Supply(SettleOrRefund(log10, e, c, a).book, owners) != Supply(e.book, owners);
    }
  }

  // ---- the same for a whole request ----

  lemma PlacedHold(q: Request, e: Economy, server: Server)
    requires !IsOpen(e.book, q.source, SendHoldId(q.messageId))
    requires Post(e.book, Entry(q.source, Hold(SendHoldId(q.messageId), HoldAmount(q, server)))).error.None?
    ensures HoldIs(AfterHold(q, e, server), SendCharge(q, server), HoldAmount(q, server))
    ensures TermsOf(AfterHold(q, e, server), SendCharge(q, server)) == TermsOf(e, SendCharge(q, server))
  {
  }

  /** A held request conserves credit under every fault-free answer exactly when
      its terms, known before it is sent, are solvent. */
  lemma SendGetConservesExactly(log10: real -> real, q: Request, target: string, e: Economy, owners: set<string>)
    requires Reputation.IsLog10(log10) && WellPriced(q) && Pool(q) <= owners
    requires !IsOpen(e.book, q.source, SendHoldId(q.messageId)) && SendHeld(q, target, e.book)
    ensures var server := FirstServerFor(q.servers, OrgOf(target)).value;
      (forall a: Answer :: a.fault.NoFault? ==>
         Supply(SendGet(log10, q, target, e, SendOutcome.Answered(a)).economy.book, owners) == Supply(e.book, owners))
      <==> Solvent(TermsOf(e, SendCharge(q, server)), HoldAmount(q, server))
  {
    var server := FirstServerFor(q.servers, OrgOf(target)).value;
    var e1, c := AfterHold(q, e, server), SendCharge(q, server);
    FirstServerListed(q.servers, OrgOf(target));
    BoundLeafListed(q, server);
    PlacedHold(q, e, server);
    PostMovesSupply(e.book, Entry(q.source, Hold(SendHoldId(q.messageId), HoldAmount(q, server))), owners);
    assert Parties(c) <= Pool(q);
    SettlementConservesExactly(log10, e1, c, HoldAmount(q, server), owners);
    forall a: Answer | a.fault.NoFault?
      ensures SendGet(log10, q, target, e, SendOutcome.Answered(a)).economy == SettleOrRefund(log10, e1, c, a)
    {
      SendGetUnfolds(log10, q, target, e, SendOutcome.Answered(a), server);
    }
  }

  // ---- when every answer is settled ----

  function DearestPrice(q: Terms): real { PeakPrice(q) * (NonNeg(q.maxResponseChars) as real) }

  ghost predicate AlwaysSettled(log10: real -> real, e: Economy, c: Charge)
    requires Reputation.IsLog10(log10)
  {
    forall a: Answer :: a.fault.NoFault? ==> !Settled(log10, e, c, a).raised
  }

  lemma BillIsAnswered(log10: real -> real, e: Economy, c: Charge, a: Answer)
    ensures Bill(log10, e, c, a).preTax == PreTax(log10, Pricing.Answered(TermsOf(e, c), a.responseChars, a.latencyMs))
  {
    assert InputsFor(e, c, a) == Pricing.Answered(TermsOf(e, c), a.responseChars, a.latencyMs);
  }

  lemma FullAnswerIsDearest(log10: real -> real, q: Terms, responseChars: nat, latencyMs: real)
    requires Reputation.IsLog10(log10) && q.baseRate >= 0.0
    ensures PreTax(log10, Pricing.Answered(q, responseChars, latencyMs)) <= DearestPrice(q)
  {
    AnswerPrice(log10, q, responseChars, latencyMs);
    PeakPriceNonNegative(q);
    var n := EffectiveChars(responseChars, q.maxResponseChars) as real;
    Grows(PeakPrice(q), Pace(q, latencyMs), 1.0);
    Grows(n, PeakPrice(q) * Pace(q, latencyMs), PeakPrice(q));
    Grows(PeakPrice(q), n, NonNeg(q.maxResponseChars) as real);
  }

  lemma BillWithinDearest(log10: real -> real, e: Economy, c: Charge, a: Answer)
    requires Reputation.IsLog10(log10) && Priced(c)
    ensures Bill(log10, e, c, a).preTax <= DearestPrice(TermsOf(e, c))
  {
    BillIsAnswered(log10, e, c, a);
    FullAnswerIsDearest(log10, TermsOf(e, c), a.responseChars, a.latencyMs);
  }

  lemma SettledWithinHold(log10: real -> real, e: Economy, c: Charge, a: Answer, hold: real)
    requires Reputation.IsLog10(log10) && Priced(c) && HoldIs(e, c, hold) && a.fault.NoFault?
    ensures !Settled(log10, e, c, a).raised <==> Bill(log10, e, c, a).preTax <= hold + TOLERANCE
  {
    BillIsSound(log10, e, c, a);
    PostedSettlement(e.book, c, Bill(log10, e, c, a), NoFault);
  }

  lemma AnySettles(log10: real -> real, e: Economy, c: Charge, a: Answer, hold: real)
    requires Reputation.IsLog10(log10) && Priced(c) && HoldIs(e, c, hold) && a.fault.NoFault?
    requires DearestPrice(TermsOf(e, c)) <= hold + TOLERANCE
    ensures !Settled(log10, e, c, a).raised
  {
    BillWithinDearest(log10, e, c, a);
    SettledWithinHold(log10, e, c, a, hold);
  }

  lemma FullPrice(log10: real -> real, q: Terms)
    requires Reputation.IsLog10(log10) && q.baseRate >= 0.0
    ensures PreTax(log10, Pricing.Answered(q, NonNeg(q.maxResponseChars), ExpectedLatencyMs(q.leafTier)))
         == DearestPrice(q)
  {
    AnswerPrice(log10, q, NonNeg(q.maxResponseChars), ExpectedLatencyMs(q.leafTier));
  }

  lemma DearestRaises(log10: real -> real, e: Economy, c: Charge, hold: real)
    requires Reputation.IsLog10(log10) && Priced(c) && HoldIs(e, c, hold)
    requires DearestPrice(TermsOf(e, c)) > hold + TOLERANCE
    ensures !AlwaysSettled(log10, e, c)
  {
    var q := TermsOf(e, c);
    var full := Answer(NonNeg(c.maxResponseChars), ExpectedLatencyMs(q.leafTier), NoFault);
    FullPrice(log10, q);
    BillIsAnswered(log10, e, c, full);
    SettledWithinHold(log10, e, c, full, hold);
    assert Settled(log10, e, c, full).raised;
  }

  /** Every answer is settled, not refunded, exactly when the price of a full,
      unhurried one is within the hold and the tolerance of a release. */
  lemma SettlesExactly(log10: real -> real, e: Economy, c: Charge, hold: real)
    requires Reputation.IsLog10(log10) && Priced(c) && HoldIs(e, c, hold)
    ensures AlwaysSettled(log10, e, c) <==> DearestPrice(TermsOf(e, c)) <= hold + TOLERANCE
  {
    if DearestPrice(TermsOf(e, c)) <= hold + TOLERANCE {
      forall a: Answer | a.fault.NoFault? ensures !Settled(log10, e, c, a).raised {
        AnySettles(log10, e, c, a, hold);
      }
    } else {
      DearestRaises(log10, e, c, hold);
    }
  }

  // ---- a request that issues credit ----

  function FreeServer(): Server { Server("free", "acme", [], [], 0.0, "*.*.*", Cheapest) }

  function DearLeaf(): MenuLeaf { MenuLeaf("cloud", Small, "m", 1.0, 600.0, 1.0, true) }

  function FreeRequest(): Request { Request("caller", "1", 0, 800, [FreeServer()], [DearLeaf()]) }

  lemma DearLeafIsBound()
    ensures BoundLeaf(FreeRequest(), FreeServer()) == Some(DearLeaf())
  {
    var l := DearLeaf();
    assert ["*", "*", "*"][1..] == ["*", "*"] && ["*", "*"][1..] == ["*"];
    assert Join(["*", "*", "*"], '.') == "*.*.*";
    PlainModelReachable(l);
    BestLeafIsBest("*.*.*", [l], Cheapest, map[]);
    assert Eligible("*.*.*", [l], l);
  }

  lemma FreeServerFound()
    ensures FirstServerFor(FreeRequest().servers, "acme") == Some(FreeServer())
    ensures HoldAmount(FreeRequest(), FreeServer()) == 0.0
  {
  }

  lemma FreeBill(log10: real -> real, e: Economy, c: Charge)
    requires Reputation.IsLog10(log10) && c.server.baseRate == 0.0 && c.leaf == Some(DearLeaf()) && c.maxResponseChars == 800
    ensures var bill := Bill(log10, e, c, Answer(100, 700.0, NoFault));
      bill.preTax == 0.0 && bill.toServer == -0.1 && SoundSplit(bill)
  {
    BillIsSound(log10, e, c, Answer(100, 700.0, NoFault));
    AnswerPrice(log10, TermsOf(e, c), 100, 700.0);
  }

  /** A free server bound to a leaf that costs 1 credit per 1000 characters: a
      request from an empty book that gets 100 characters back leaves a tenth of a
      credit more in the wallets than there was. */
  lemma FreeServerIssuesCredit(log10: real -> real, target: string)
    requires Reputation.IsLog10(log10) && OrgOf(target) == "acme"
    ensures var q := FreeRequest();
      var e := Economy(EMPTY, map[]);
      var run := SendGet(log10, q, target, e, SendOutcome.Answered(Answer(100, 700.0, NoFault)));
      Supply(run.economy.book, Pool(q)) == Supply(EMPTY, Pool(q)) + 0.1
  {
    var q, e, a := FreeRequest(), Economy(EMPTY, map[]), Answer(100, 700.0, NoFault);
    var server := FreeServer();
    FreeServerFound();
    DearLeafIsBound();
    var c := SendCharge(q, server);
    var e1 := AfterHold(q, e, server);
    assert SendHeld(q, target, EMPTY);
    PlacedHold(q, e, server);
    SendGetUnfolds(log10, q, target, e, SendOutcome.Answered(a), server);
    PostMovesSupply(EMPTY, Entry(q.source, Hold(SendHoldId(q.messageId), 0.0)), Pool(q));
    FreeBill(log10, e1, c);
    SettledSupply(log10, e1, c, a, Pool(q));
    CompleteSettlementNet(c, Bill(log10, e1, c, a));
  }
}
