/** One call from end to end, in numbers. */
module Examples {
  import opened Common
  import opened Text
  import opened Wallets
  import opened Ledger
  import opened Pricing
  import opened ComputeProvider
  import opened Broker
  import opened Dispatch
  import opened CastGets
  import opened SendGets
  import opened Payments
  import Glob
  import Reputation

  /** A server that is bound to provider `p2`, and a menu whose first leaf is another
      provider's, dearer, and down. */
  function Acme(): Server { Server("srv", "acme", [], [], 0.01, "p2.*.*", Cheapest) }

  function Down(): MenuLeaf { MenuLeaf("p1", Big, "m", 1.0, 900.0, 1.0, false) }

  function Up(): MenuLeaf { MenuLeaf("p2", Small, "m", 0.5, 600.0, 1.0, true) }

  function Call(): Request { Request("caller", "1", 0, 800, [Acme()], [Down(), Up()]) }

  lemma UpMatches()
    ensures Glob.PatternMatches("p2.*.*", Address(Up()))
  {
    var ps, fs := ["p2", "*", "*"], ["p2", "small", "m"];
    assert ps[1..] == ["*", "*"] && ["*", "*"][1..] == ["*"];
    assert fs[1..] == ["small", "m"] && ["small", "m"][1..] == ["m"];
    assert Join(ps, '.') == "p2.*.*" && Join(fs, '.') == "p2.small.m" == Address(Up());
    SplitOfJoin(ps, '.');
    SplitOfJoin(fs, '.');
    assert Glob.Globs("p2", "p2") by { assert "p2"[1..] == "2" && "2"[1..] == ""; }
    StarMatchesLine("small");
    StarMatchesLine("m");
    ThreeFieldsMatch("p2.*.*", Address(Up()), ps, fs);
  }

  lemma UpIsBound()
    ensures BoundLeaf(Call(), Acme()) == Some(Up())
  {
    UpMatches();
    BestLeafIsBest("p2.*.*", [Down(), Up()], Cheapest, map[]);
    assert Eligible("p2.*.*", [Down(), Up()], Up());
  }

  /** The bill of 100 characters out of 800, said in five seconds. */
  lemma BillInNumbers(log10: real -> real, e: Economy, c: Charge)
    requires Reputation.IsLog10(log10) && e.reputations == map[]
    requires c.server == Acme() && c.leaf == Some(Up()) && c.maxResponseChars == 800
    ensures var s := Bill(log10, e, c, Answer(100, 5000.0, NoFault));
      s.preTax == 2.0 && s.toServer == 1.85 && s.toCompute == 0.05 && s.toBroker == 0.06 && s.toCommons == 0.04
  {
    RetentionAtLeastOne(log10, 0);
  }

  /** What is left in the wallets, of 100 each: the caller has paid 2, the server got
      1.85, the provider 0.05, the broker 0.06 and the commons 0.04. */
  function Left(o: string): real
  {
    if o == "caller" then 98.0
    else if o == "srv" then 101.85
    else if o == "p2" then 100.05
    else if o == BROKER_WALLET then 100.06
    else if o == COMMONS_WALLET then 100.04
    else 100.0
  }

  lemma OneReceiptLeaves(r: Receipt, o: string)
    requires r.covered && r.charge.caller == "caller" && r.charge.server == Acme() && r.charge.leaf == Some(Up())
    requires r.bill.preTax == 2.0 && r.bill.toServer == 1.85 && r.bill.toCompute == 0.05
    requires r.bill.toBroker == 0.06 && r.bill.toCommons == 0.04
    ensures 100.0 + TotalPart([r], o) == Left(o)
  {
    assert [r][1..] == [];
  }

  /** What is left on record of the server: one accepted call of five seconds. */
  predicate Recorded(e: Economy)
  {
    && e.reputations.Keys == {"srv"}
    && var r := e.reputations["srv"];
       && r.reputation == 0.505 && r.completedAccepted == 1 && r.completedTotal == 1 && r.failed == 0
       && r.AvgLatencyMs() == 5000.0 && r.avgOverage == 0.95625 && r.csat == 0.5 && r.csatSamples == 0
  }

  lemma OneCallIsRecorded(log10: real -> real, e: Economy, c: Charge)
    requires Reputation.IsLog10(log10) && e.reputations == map[] && c.server == Acme() && c.leaf == Some(Up())
    requires c.maxResponseChars == 800 && ReceiptFor(log10, e, c, Answer(100, 5000.0, NoFault)).covered
    ensures Recorded(SettleOrRefund(log10, e, c, Answer(100, 5000.0, NoFault)))
  {
    var a := Answer(100, 5000.0, NoFault);
    SettlementRecords(log10, e, c, a);
    RecordInForce(e, "srv");
    assert forall o :: o in SettleOrRefund(log10, e, c, a).reputations <==> o == "srv";
  }

  lemma HoldInNumbers()
    ensures FirstServerFor(Call().servers, "acme") == Some(Acme()) && ServerFor(Call().servers, "acme") == Some(Acme())
    ensures HoldAmount(Call(), Acme()) == 16.0
  {
    assert [Acme()][1..] == [];
  }

  lemma RequestRun(log10: real -> real, target: string, run: SendRun)
    requires Reputation.IsLog10(log10) && OrgOf(target) == "acme"
    requires run == SendGet(log10, Call(), target, Economy(EMPTY, map[]),
                            SendOutcome.Answered(Answer(100, 5000.0, NoFault)))
    ensures var e1, c := AfterHold(Call(), Economy(EMPTY, map[]), Acme()), SendCharge(Call(), Acme());
      var a := Answer(100, 5000.0, NoFault);
      && run == SendRun(SettleOrRefund(log10, e1, c, a), Replied, [ReceiptFor(log10, e1, c, a)])
      && ReceiptFor(log10, e1, c, a).covered && c.leaf == Some(Up())
  {
    var e1, c := AfterHold(Call(), Economy(EMPTY, map[]), Acme()), SendCharge(Call(), Acme());
    HoldInNumbers();
    UpIsBound();
    assert SendHeld(Call(), target, EMPTY);
    SendGetUnfolds(log10, Call(), target, Economy(EMPTY, map[]),
                   SendOutcome.Answered(Answer(100, 5000.0, NoFault)), Acme());
    BillInNumbers(log10, e1, c);
  }

  lemma RequestLeaves(log10: real -> real, target: string, o: string, run: SendRun)
    requires Reputation.IsLog10(log10) && OrgOf(target) == "acme"
    requires run == SendGet(log10, Call(), target, Economy(EMPTY, map[]),
                            SendOutcome.Answered(Answer(100, 5000.0, NoFault)))
    ensures WalletOf(run.economy.book, o).balance == Left(o)
  {
    var q, e, outcome := Call(), Economy(EMPTY, map[]), SendOutcome.Answered(Answer(100, 5000.0, NoFault));
    var e1, c := AfterHold(q, e, Acme()), SendCharge(q, Acme());
    RequestRun(log10, target, run);
    BillInNumbers(log10, e1, c);
    SendGetPays(log10, q, target, e, outcome, o);
    OneReceiptLeaves(ReceiptFor(log10, e1, c, Answer(100, 5000.0, NoFault)), o);
  }

  lemma RequestHoldsNothing(log10: real -> real, target: string, o: string, run: SendRun)
    requires Reputation.IsLog10(log10)
    requires run == SendGet(log10, Call(), target, Economy(EMPTY, map[]),
                            SendOutcome.Answered(Answer(100, 5000.0, NoFault)))
    ensures WalletOf(run.economy.book, o).holds == map[]
  {
    EmptyIsAudited();
    SendGetIsSafe(log10, Call(), target, Economy(EMPTY, map[]), SendOutcome.Answered(Answer(100, 5000.0, NoFault)),
                  Pool(Call()));
    assert SameHolds(EMPTY, run.economy.book, o);
  }

  /** One request. */
  lemma SendGetInNumbers(log10: real -> real, target: string, o: string)
    requires Reputation.IsLog10(log10) && OrgOf(target) == "acme"
    ensures var run := SendGet(log10, Call(), target, Economy(EMPTY, map[]),
                               SendOutcome.Answered(Answer(100, 5000.0, NoFault)));
      WalletOf(run.economy.book, o).balance == Left(o) && WalletOf(run.economy.book, o).holds == map[]
      && Recorded(run.economy) && run.result == Replied
  {
    var run := SendGet(log10, Call(), target, Economy(EMPTY, map[]),
                       SendOutcome.Answered(Answer(100, 5000.0, NoFault)));
    RequestRun(log10, target, run);
    RequestLeaves(log10, target, o, run);
    RequestHoldsNothing(log10, target, o, run);
    OneCallIsRecorded(log10, AfterHold(Call(), Economy(EMPTY, map[]), Acme()), SendCharge(Call(), Acme()));
  }

  function HeldBook(target: string): Book
  {
    Post(EMPTY, Entry("caller", Hold(CastHoldId("1", target), 16.0))).book
  }

  lemma OneTargetHeld(target: string)
    requires OrgOf(target) == "acme"
    ensures var p := Placed(Call(), EMPTY, [target]);
      && p.book == HeldBook(target) && p.held == map[target := Ctx(Acme(), Some(Up()))] && p.deliverable == [target]
      && !p.aborted
  {
    HoldInNumbers();
    UpIsBound();
    assert [target][1..] == [];
    var start := Placing(EMPTY, map[], [], [], map[], false);
    assert Place(Call(), start, [target]) == PlaceOne(Call(), start, target);
    assert [] + [target] == [target];
  }

  lemma OneReplyCollected(log10: real -> real, target: string)
    requires Reputation.IsLog10(log10) && OrgOf(target) == "acme"
    ensures var q, e1 := Call(), Economy(HeldBook(target), map[]);
      var c, a := ChargeFor(q, target, Ctx(Acme(), Some(Up()))), Answer(100, 5000.0, NoFault);
      var s := Collect(log10, q, map[target := Ctx(Acme(), Some(Up()))], Collecting(e1, {}, []), [Response(target, a)]);
      s.receipts == [ReceiptFor(log10, e1, c, a)] && s.economy == SettleOrRefund(log10, e1, c, a)
      && ReceiptFor(log10, e1, c, a).covered && IsOpen(e1.book, "caller", c.holdId)
  {
    var q, e1, a := Call(), Economy(HeldBook(target), map[]), Answer(100, 5000.0, NoFault);
    var held := map[target := Ctx(Acme(), Some(Up()))];
    var c, r := ChargeFor(q, target, held[target]), Response(target, a);
    assert [r][1..] == [];
    assert Collect(log10, q, held, Collecting(e1, {}, []), [r]) == CollectOne(log10, q, held, Collecting(e1, {}, []), r);
    assert [] + [ReceiptFor(log10, e1, c, a)] == [ReceiptFor(log10, e1, c, a)];
    BillInNumbers(log10, e1, c);
  }

  lemma BroadcastRun(log10: real -> real, target: string)
    requires Reputation.IsLog10(log10) && OrgOf(target) == "acme"
    ensures var e1, c := Economy(HeldBook(target), map[]), ChargeFor(Call(), target, Ctx(Acme(), Some(Up())));
      var a := Answer(100, 5000.0, NoFault);
      var run := CastGet(log10, Call(), [target], Economy(EMPTY, map[]), Replies([Response(target, a)]));
      && run.receipts == [ReceiptFor(log10, e1, c, a)] && ReceiptFor(log10, e1, c, a).covered
      && run.economy.reputations == SettleOrRefund(log10, e1, c, a).reputations
  {
    OneTargetHeld(target);
    OneReplyCollected(log10, target);
  }

  lemma BroadcastIsSafe(log10: real -> real, target: string, o: string)
    requires Reputation.IsLog10(log10)
    ensures var delivery := Replies([Response(target, Answer(100, 5000.0, NoFault))]);
      WalletOf(CastGet(log10, Call(), [target], Economy(EMPTY, map[]), delivery).economy.book, o).holds == map[]
  {
    var delivery := Replies([Response(target, Answer(100, 5000.0, NoFault))]);
    EmptyIsAudited();
    CastGetIsSafe(log10, Call(), [target], Economy(EMPTY, map[]), delivery, Pool(Call()));
    assert SameHolds(EMPTY, CastGet(log10, Call(), [target], Economy(EMPTY, map[]), delivery).economy.book, o);
  }

  lemma BroadcastLeaves(log10: real -> real, target: string, o: string, run: CastRun)
    requires Reputation.IsLog10(log10) && OrgOf(target) == "acme"
    requires run == CastGet(log10, Call(), [target], Economy(EMPTY, map[]),
                            Replies([Response(target, Answer(100, 5000.0, NoFault))]))
    ensures WalletOf(run.economy.book, o).balance == Left(o)
  {
    var a := Answer(100, 5000.0, NoFault);
    var e1, c := Economy(HeldBook(target), map[]), ChargeFor(Call(), target, Ctx(Acme(), Some(Up())));
    EmptyIsAudited();
    BroadcastRun(log10, target);
    BillInNumbers(log10, e1, c);
    CastGetPays(log10, Call(), [target], Economy(EMPTY, map[]), Replies([Response(target, a)]), Pool(Call()), o);
    OneReceiptLeaves(ReceiptFor(log10, e1, c, a), o);
  }

  lemma BroadcastRecords(log10: real -> real, target: string, run: CastRun)
    requires Reputation.IsLog10(log10) && OrgOf(target) == "acme"
    requires run == CastGet(log10, Call(), [target], Economy(EMPTY, map[]),
                            Replies([Response(target, Answer(100, 5000.0, NoFault))]))
    ensures Recorded(run.economy)
  {
    BroadcastRun(log10, target);
    OneCallIsRecorded(log10, Economy(HeldBook(target), map[]), ChargeFor(Call(), target, Ctx(Acme(), Some(Up()))));
  }

  /** A broadcast to one target comes to the same. */
  lemma CastGetInNumbers(log10: real -> real, target: string, o: string)
    requires Reputation.IsLog10(log10) && OrgOf(target) == "acme"
    ensures var run := CastGet(log10, Call(), [target], Economy(EMPTY, map[]),
                               Replies([Response(target, Answer(100, 5000.0, NoFault))]));
      WalletOf(run.economy.book, o).balance == Left(o) && WalletOf(run.economy.book, o).holds == map[]
      && Recorded(run.economy)
  {
    var run := CastGet(log10, Call(), [target], Economy(EMPTY, map[]),
                       Replies([Response(target, Answer(100, 5000.0, NoFault))]));
    BroadcastIsSafe(log10, target, o);
    BroadcastLeaves(log10, target, o, run);
    BroadcastRecords(log10, target, run);
  }
}
