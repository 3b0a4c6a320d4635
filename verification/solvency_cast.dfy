/** Which broadcasts conserve credit, told before anybody has answered. */
module BroadcastSolvency {
  import opened Wallets
  import opened Ledger
  import opened Broker
  import opened Dispatch
  import opened CastGets
  import opened Solvency
  import Reputation

  /** The charge that a held target's answer will be settled on. */
  function ChargeOf(q: Request, held: map<string, Ctx>, t: string): Charge
    requires t in held
  {
    ChargeFor(q, t, held[t])
  }

  predicate SolventTarget(q: Request, e: Economy, held: map<string, Ctx>, t: string)
    requires t in held
  {
    Solvent(TermsOf(e, ChargeOf(q, held, t)), HoldAmount(q, held[t].server))
  }

  /** No two held targets share a server, so no answer changes another's terms. */
  predicate Apart(held: map<string, Ctx>)
  {
    forall t, u :: t in held && u in held && held[t].server.serverId == held[u].server.serverId ==> t == u
  }

  predicate FaultFree(delivery: Delivery)
  {
    delivery.Replies? ==> forall r :: r in delivery.responses ==> r.answer.fault.NoFault?
  }

  /** A target that has not responded has its hold, and the terms it started with. */
  predicate Waiting(q: Request, e0: Economy, e: Economy, held: map<string, Ctx>, t: string)
    requires t in held
  {
    var c := ChargeOf(q, held, t);
    HoldIs(e, c, HoldAmount(q, held[t].server)) && TermsOf(e, c) == TermsOf(e0, c)
  }

  ghost predicate AllWaiting(q: Request, e0: Economy, held: map<string, Ctx>, s: Collecting)
  {
    forall t :: t in held && t !in s.responded ==> Waiting(q, e0, s.economy, held, t)
  }

  lemma OthersRecords(log10: real -> real, e: Economy, c: Charge, a: Answer, owner: string)
    requires owner != c.server.serverId
    ensures ReputationFor(SettleOrRefund(log10, e, c, a), owner) == ReputationFor(e, owner)
  {
  }

  /** One settlement leaves the other targets waiting as they were. */
  lemma OthersWait(log10: real -> real, q: Request, e0: Economy, e: Economy, held: map<string, Ctx>, t: string, a: Answer,
                   u: string)
    requires Reputation.IsLog10(log10) && Apart(held) && t in held && u in held && t != u
    requires Priced(ChargeOf(q, held, t))
    requires Waiting(q, e0, e, held, t) && Waiting(q, e0, e, held, u)
    ensures Waiting(q, e0, SettleOrRefund(log10, e, ChargeOf(q, held, t), a), held, u)
  {
    var c := ChargeOf(q, held, t);
    SettledHolds(log10, e, c, a);
    OthersRecords(log10, e, c, a, held[u].server.serverId);
    if CastHoldId(q.messageId, u) == CastHoldId(q.messageId, t) { CastHoldIdInjective(q.messageId, u, t); }
  }

  lemma HeldIsPriced(q: Request, held: map<string, Ctx>, t: string)
    requires WellPriced(q) && KnownContexts(q, held) && t in held
    ensures Priced(ChargeOf(q, held, t)) && Parties(ChargeOf(q, held, t)) <= Pool(q)
  {
    ServerForListed(q.servers, OrgOf(t));
  }

  lemma CollectOneConserves(log10: real -> real, q: Request, e0: Economy, held: map<string, Ctx>, s: Collecting, r: Response,
                            owners: set<string>)
    requires Reputation.IsLog10(log10) && WellPriced(q) && KnownContexts(q, held) && Pool(q) <= owners && Apart(held)
    requires AllWaiting(q, e0, held, s) && r.answer.fault.NoFault?
    requires forall t :: t in held ==> SolventTarget(q, e0, held, t)
    ensures AllWaiting(q, e0, held, CollectOne(log10, q, held, s, r))
    ensures Supply(CollectOne(log10, q, held, s, r).economy.book, owners) == Supply(s.economy.book, owners)
  {
    var t := r.source;
    if t in held && t !in s.responded {
      var c, hold := ChargeOf(q, held, t), HoldAmount(q, held[t].server);
      HeldIsPriced(q, held, t);
      assert Waiting(q, e0, s.economy, held, t) && SolventTarget(q, e0, held, t);
      HarmlessWhenSolvent(log10, TermsOf(e0, c), hold, r.answer.responseChars, r.answer.latencyMs);
      SettlementIssues(log10, s.economy, c, r.answer, hold, owners);
      forall u | u in held && u !in s.responded && u != t
        ensures Waiting(q, e0, SettleOrRefund(log10, s.economy, c, r.answer), held, u)
      {
        OthersWait(log10, q, e0, s.economy, held, t, r.answer, u);
      }
    }
  }

  lemma {:induction false} CollectConserves(log10: real -> real, q: Request, e0: Economy, held: map<string, Ctx>,
                                            s: Collecting, rs: seq<Response>, owners: set<string>)
    requires Reputation.IsLog10(log10) && WellPriced(q) && KnownContexts(q, held) && Pool(q) <= owners && Apart(held)
    requires AllWaiting(q, e0, held, s) && forall r :: r in rs ==> r.answer.fault.NoFault?
    requires forall t :: t in held ==> SolventTarget(q, e0, held, t)
    ensures Supply(Collect(log10, q, held, s, rs).economy.book, owners) == Supply(s.economy.book, owners)
    decreases |rs|
  {
    if rs != [] {
      CollectOneConserves(log10, q, e0, held, s, rs[0], owners);
      CollectConserves(log10, q, e0, held, CollectOne(log10, q, held, s, rs[0]), rs[1..], owners);
    }
  }

  lemma {:induction false} SweepConserves(q: Request, b: Book, order: seq<string>, responded: set<string>,
                                          owners: set<string>)
    requires q.source in owners
    ensures Supply(Sweep(q, b, order, responded), owners) == Supply(b, owners)
    decreases |order|
  {
    if order != [] {
      var refund := Entry(q.source, Refund(CastHoldId(q.messageId, order[0])));
      PostMovesSupply(b, refund, owners);
      SweepConserves(q, if order[0] in responded then b else Post(b, refund).book, order[1..], responded, owners);
    }
  }

  // ---- from the hold loop to the end ----

  function Started(e: Economy, p: Placing): Collecting { Collecting(e.(book := p.book), {}, []) }

  lemma StartsWaiting(q: Request, e: Economy, p: Placing)
    requires PlacingInv(q, e.book, p)
    ensures AllWaiting(q, e, p.held, Started(e, p))
  {
    forall t | t in p.held ensures Waiting(q, e, Started(e, p).economy, p.held, t) {
      assert CastHoldId(q.messageId, t) in WalletOf(p.book, q.source).holds;
    }
  }

  /** The supply after a broadcast is that after its responses. */
  lemma CastGetSupply(log10: real -> real, q: Request, targets: seq<string>, e: Economy, rs: seq<Response>,
                      owners: set<string>)
    requires q.source in owners && !Placed(q, e.book, targets).aborted && Placed(q, e.book, targets).deliverable != []
    ensures var p := Placed(q, e.book, targets);
      Supply(CastGet(log10, q, targets, e, Replies(rs)).economy.book, owners)
        == Supply(Collect(log10, q, p.held, Started(e, p), rs).economy.book, owners)
  {
    var p := Placed(q, e.book, targets);
    var s := Collect(log10, q, p.held, Started(e, p), rs);
    SweepConserves(q, s.economy.book, p.order, s.responded, owners);
  }

  lemma SolventConserves(log10: real -> real, q: Request, targets: seq<string>, e: Economy, delivery: Delivery,
                         owners: set<string>)
    requires Reputation.IsLog10(log10) && WellPriced(q) && Audited(e.book) && Pool(q) <= owners
    requires FreshIds(q, e.book, targets) && FaultFree(delivery)
    requires var held := Placed(q, e.book, targets).held;
      Apart(held) && forall t :: t in held ==> SolventTarget(q, e, held, t)
    ensures Supply(CastGet(log10, q, targets, e, delivery).economy.book, owners) == Supply(e.book, owners)
  {
    var p := Placed(q, e.book, targets);
    PlacedKeeps(q, e.book, targets, owners);
    if p.deliverable != [] {
      match delivery
      case BusRaised => SweepConserves(q, p.book, p.order, {}, owners);
      case Replies(rs) =>
        StartsWaiting(q, e, p);
        CollectConserves(log10, q, e, p.held, Started(e, p), rs, owners);
        CastGetSupply(log10, q, targets, e, rs, owners);
    }
  }

  /** One target alone says one character too fast. */
  function Hasty(t: string): Delivery { Replies([Response(t, Answer(1, 0.0, NoFault))]) }

  lemma HastyIssues(log10: real -> real, q: Request, e0: Economy, held: map<string, Ctx>, s: Collecting, t: string,
                    owners: set<string>)
    requires Reputation.IsLog10(log10) && WellPriced(q) && KnownContexts(q, held) && Pool(q) <= owners
    requires t in held && t !in s.responded && Waiting(q, e0, s.economy, held, t) && !SolventTarget(q, e0, held, t)
    ensures Supply(Collect(log10, q, held, s, Hasty(t).responses).economy.book, owners) != Supply(s.economy.book, owners)
  {
    var c, hold, r := ChargeOf(q, held, t), HoldAmount(q, held[t].server), Response(t, Answer(1, 0.0, NoFault));
    HeldIsPriced(q, held, t);
    HastyCharacter(log10, TermsOf(e0, c), hold);
    SettlementIssues(log10, s.economy, c, r.answer, hold, owners);
    assert [r][1..] == [];
    assert Collect(log10, q, held, s, [r]) == CollectOne(log10, q, held, s, r);
  }

  /** Sharing servers or not, an insolvent target can issue credit. */
  lemma InsolventIssues(log10: real -> real, q: Request, targets: seq<string>, e: Economy, t: string, owners: set<string>)
    requires Reputation.IsLog10(log10) && WellPriced(q) && Audited(e.book) && Pool(q) <= owners
    requires FreshIds(q, e.book, targets)
    requires var held := Placed(q, e.book, targets).held; t in held && !SolventTarget(q, e, held, t)
    ensures Supply(CastGet(log10, q, targets, e, Hasty(t)).economy.book, owners) != Supply(e.book, owners)
  {
    var p := Placed(q, e.book, targets);
    PlacedKeeps(q, e.book, targets, owners);
    StartsWaiting(q, e, p);
    assert Waiting(q, e, Started(e, p).economy, p.held, t);
    HastyIssues(log10, q, e, p.held, Started(e, p), t, owners);
    CastGetSupply(log10, q, targets, e, Hasty(t).responses, owners);
  }

  /** A broadcast to targets of which no two share a server conserves credit under
      every fault-free delivery exactly when the terms of each held target, known
      before it is sent, are solvent. */
  lemma CastGetConservesExactly(log10: real -> real, q: Request, targets: seq<string>, e: Economy, owners: set<string>)
    requires Reputation.IsLog10(log10) && WellPriced(q) && Audited(e.book) && Pool(q) <= owners
    requires FreshIds(q, e.book, targets) && Apart(Placed(q, e.book, targets).held)
    ensures var held := Placed(q, e.book, targets).held;
      (forall delivery :: FaultFree(delivery) ==>
         Supply(CastGet(log10, q, targets, e, delivery).economy.book, owners) == Supply(e.book, owners))
      <==> forall t :: t in held ==> SolventTarget(q, e, held, t)
  {
    var held := Placed(q, e.book, targets).held;
    if t :| t in held && !SolventTarget(q, e, held, t) {
      InsolventIssues(log10, q, targets, e, t, owners);
      assert FaultFree(Hasty(t));
    } else {
      forall delivery | FaultFree(delivery)
        ensures Supply(CastGet(log10, q, targets, e, delivery).economy.book, owners) == Supply(e.book, owners)
      {
        SolventConserves(log10, q, targets, e, delivery, owners);
      }
    }
  }
}
