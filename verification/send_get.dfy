/** SEND-GET: hold, send, settle or refund. */
module SendGets {
  import opened Common
  import opened Wallets
  import opened Ledger
  import opened ComputeProvider
  import opened Broker
  import opened Dispatch
  import Reputation

  /** The point-to-point path takes the first match instead. */
  function FirstServerFor(servers: seq<Server>, org: string): Option<Server>
  {
    if servers == [] then None
    else if servers[0].org == org then Some(servers[0]) else FirstServerFor(servers[1..], org)
  }

  predicate IsFirst(servers: seq<Server>, org: string, i: int)
  {
    0 <= i < |servers| && servers[i].org == org && forall k :: 0 <= k < i ==> servers[k].org != org
  }

  predicate IsLast(servers: seq<Server>, org: string, j: int)
  {
    0 <= j < |servers| && servers[j].org == org && forall k :: j < k < |servers| ==> servers[k].org != org
  }

  predicate Unserved(servers: seq<Server>, org: string) { forall s :: s in servers ==> s.org != org }

  lemma {:induction false} FirstIsFirst(servers: seq<Server>, org: string) returns (i: int)
    ensures match FirstServerFor(servers, org)
      case None => Unserved(servers, org)
      case Some(s) => IsFirst(servers, org, i) && servers[i] == s
  {
    i := 0;
    if servers != [] && servers[0].org != org {
      var rest := servers[1..];
      i := FirstIsFirst(rest, org);
      if FirstServerFor(rest, org).Some? {
        assert forall k :: 0 < k < i + 1 ==> servers[k] == rest[k - 1];
        i := i + 1;
      }
    }
  }

  lemma {:induction false} LastIsLast(servers: seq<Server>, org: string) returns (j: int)
    ensures match ServerFor(servers, org)
      case None => Unserved(servers, org)
      case Some(s) => IsLast(servers, org, j) && servers[j] == s
  {
    j := 0;
    if servers != [] {
      var rest := servers[1..];
      j := LastIsLast(rest, org);
      if ServerFor(rest, org).Some? {
        assert forall k :: j + 1 < k < |servers| ==> servers[k] == rest[k - 1];
        j := j + 1;
      } else {
        assert forall k :: 0 < k < |servers| ==> servers[k] in rest;
        j := 0;
      }
    }
  }

  /** A request and a broadcast look the billed server up differently. They find
      the same one exactly when the organisation has none, or the first and the
      last of its servers are the same. */
  lemma SameServerExactly(servers: seq<Server>, org: string)
    ensures FirstServerFor(servers, org) == ServerFor(servers, org)
      <==> || Unserved(servers, org)
           || exists i, j :: IsFirst(servers, org, i) && IsLast(servers, org, j) && servers[i] == servers[j]
  {
    var i := FirstIsFirst(servers, org);
    var j := LastIsLast(servers, org);
    if Unserved(servers, org) {
    } else {
      var s :| s in servers && s.org == org;
      forall m, n | IsFirst(servers, org, m) && IsLast(servers, org, n) ensures m == i && n == j { }
    }
  }

  /** Any two different servers of one organisation are told apart. */
  lemma TwoServersDiffer(a: Server, b: Server)
    requires a.org == b.org && a != b
    ensures FirstServerFor([a, b], a.org) == Some(a) && ServerFor([a, b], a.org) == Some(b)
  {
    assert [a, b][1..] == [b] && [b][1..] == [];
    assert ServerFor([b], a.org) == Some(b);
  }

  /** For example: the same target costs 4 credits to ask and 8 to broadcast to. */
  lemma TwoServersExample()
    ensures var a := Server("a", "acme", [], [], 0.01, "*.*.*", Cheapest);
      var b := Server("b", "acme", [], [], 0.02, "*.*.*", Cheapest);
      var q := Request("caller", "m", 0, 200, [a, b], []);
      && FirstServerFor(q.servers, "acme") == Some(a) && HoldAmount(q, a) == 4.0
      && ServerFor(q.servers, "acme") == Some(b) && HoldAmount(q, b) == 8.0
  {
    TwoServersDiffer(Server("a", "acme", [], [], 0.01, "*.*.*", Cheapest),
                     Server("b", "acme", [], [], 0.02, "*.*.*", Cheapest));
  }

  // ---- point to point ----

  /** What the bus does with a single request; `NoAnswer` is a timeout. */
  datatype SendOutcome = SendRaised | NoAnswer | Answered(answer: Answer)

  datatype SendResult = Failed | NoReply | Replied

  datatype SendRun = SendRun(economy: Economy, result: SendResult, receipts: seq<Receipt>)

  /** An unbilled target is dispatched without touching the economy. */
  function Unbilled(e: Economy, outcome: SendOutcome): SendRun
  {
    SendRun(e, match outcome case SendRaised => Failed case NoAnswer => NoReply case Answered(_) => Replied, [])
  }

  function SendCharge(q: Request, s: Server): Charge
  {
    Charge(q.source, SendHoldId(q.messageId), s, BoundLeaf(q, s), q.maxResponseChars)
  }

  function SendGet(log10: real -> real, q: Request, target: string, e: Economy, outcome: SendOutcome): SendRun
  {
    match FirstServerFor(q.servers, OrgOf(target))
    case None => Unbilled(e, outcome)
    case Some(server) =>
      var id := SendHoldId(q.messageId);
      var hold := Post(e.book, Entry(q.source, Hold(id, HoldAmount(q, server))));
      var e1 := e.(book := hold.book);
      var refunded := e1.(book := Post(e1.book, Entry(q.source, Refund(id))).book);
      if hold.error.Some? then
        SendRun(e1, if hold.error == Some(InsufficientFunds) then NoReply else Failed, [])
      else match outcome
        case SendRaised => SendRun(refunded, Failed, [])
        case NoAnswer => SendRun(refunded, NoReply, [])
        case Answered(a) =>
          var c := SendCharge(q, server);
          SendRun(SettleOrRefund(log10, e1, c, a), Replied, [ReceiptFor(log10, e1, c, a)])
  }

  lemma {:induction false} FirstServerListed(servers: seq<Server>, org: string)
    ensures var s := FirstServerFor(servers, org); s.Some? ==> s.value in servers && s.value.org == org
  {
    if servers != [] { FirstServerListed(servers[1..], org); }
  }

  /** Was the single hold placed? */
  predicate SendHeld(q: Request, target: string, b: Book)
  {
    var s := FirstServerFor(q.servers, OrgOf(target));
    s.Some? && Post(b, Entry(q.source, Hold(SendHoldId(q.messageId), HoldAmount(q, s.value)))).error.None?
  }

  /** After the hold is placed the wallets differ from before by that hold alone. */
  ghost predicate OnlyHeld(q: Request, b0: Book, b: Book, owners: set<string>)
  {
    var id := SendHoldId(q.messageId);
    && Audited(b)
    && id in WalletOf(b, q.source).holds
    && WalletOf(b, q.source).holds - {id} == WalletOf(b0, q.source).holds
    && (forall o :: o != q.source ==> WalletOf(b, o).holds == WalletOf(b0, o).holds)
    && (forall o, i :: Opens(b, o, i) == Opens(b0, o, i) + (if o == q.source && i == id then 1 else 0))
    && Supply(b, owners) == Supply(b0, owners)
  }

  lemma FreshHold(b: Book, owner: string, id: string, amount: real)
    requires !IsOpen(b, owner, id)
    ensures var hold := Post(b, Entry(owner, Hold(id, amount)));
      hold.error.None? ==>
        && id in WalletOf(hold.book, owner).holds
        && WalletOf(hold.book, owner).holds - {id} == WalletOf(b, owner).holds
        && (forall o :: o != owner ==> WalletOf(hold.book, o).holds == WalletOf(b, o).holds)
        && (forall o, i :: Opens(hold.book, o, i) == Opens(b, o, i) + (if o == owner && i == id then 1 else 0))
  {
    var hold := Entry(owner, Hold(id, amount));
    forall o, i { PostOpens(b, hold, o, i); }
    var before := WalletOf(b, owner).holds;
    assert before[id := amount] - {id} == before;
  }

  lemma HoldPlaced(q: Request, b: Book, amount: real, owners: set<string>)
    requires Audited(b) && q.source in owners && !IsOpen(b, q.source, SendHoldId(q.messageId))
    ensures var hold := Post(b, Entry(q.source, Hold(SendHoldId(q.messageId), amount)));
      hold.error.None? ==> OnlyHeld(q, b, hold.book, owners)
  {
    var hold := Entry(q.source, Hold(SendHoldId(q.messageId), amount));
    PostKeepsAudited(b, hold);
    PostMovesSupply(b, hold, owners);
    FreshHold(b, q.source, SendHoldId(q.messageId), amount);
  }

  lemma HoldClosed(q: Request, b0: Book, b: Book, after: Book, owners: set<string>)
    requires OnlyHeld(q, b0, b, owners)
    requires Refunds(q, b, after)
    ensures forall o :: SameHolds(b0, after, o)
  {
  }

  lemma HoldRefunded(q: Request, b0: Book, b: Book, owners: set<string>)
    requires OnlyHeld(q, b0, b, owners) && q.source in owners
    ensures var after := Post(b, Entry(q.source, Refund(SendHoldId(q.messageId)))).book;
      && Audited(after) && Supply(after, owners) == Supply(b0, owners)
      && (forall o :: SameHolds(b0, after, o))
      && (forall o, i :: Opens(after, o, i) == Opens(b, o, i))
  {
    var refund := Entry(q.source, Refund(SendHoldId(q.messageId)));
    PostKeepsAudited(b, refund);
    PostMovesSupply(b, refund, owners);
    forall o, i { PostOpens(b, refund, o, i); }
    assert Refunds(q, b, Post(b, refund).book);
    HoldClosed(q, b0, b, Post(b, refund).book, owners);
  }

  ghost predicate Refunds(q: Request, b: Book, after: Book)
  {
    && WalletOf(after, q.source).holds == WalletOf(b, q.source).holds - {SendHoldId(q.messageId)}
    && forall o :: o != q.source ==> WalletOf(after, o).holds == WalletOf(b, o).holds
  }

  lemma AnswerSettled(log10: real -> real, q: Request, b0: Book, e: Economy, c: Charge, a: Answer,
                      owners: set<string>)
    requires Reputation.IsLog10(log10) && Priced(c) && Parties(c) <= owners
    requires c.caller == q.source && c.holdId == SendHoldId(q.messageId)
    requires OnlyHeld(q, b0, e.book, owners)
    ensures var after := SettleOrRefund(log10, e, c, a).book;
      && Audited(after)
      && Supply(after, owners) == Supply(b0, owners) + Issue(ReceiptFor(log10, e, c, a))
      && (forall o :: SameHolds(b0, after, o))
      && (forall o, i :: Opens(after, o, i) == Opens(e.book, o, i))
  {
    SettleOrRefundEffect(log10, e, c, a, owners);
    HoldClosed(q, b0, e.book, SettleOrRefund(log10, e, c, a).book, owners);
  }

  lemma ReceiptIsSound(log10: real -> real, e: Economy, c: Charge, a: Answer)
    requires Reputation.IsLog10(log10) && Priced(c)
    ensures SoundSplit(ReceiptFor(log10, e, c, a).bill)
  {
    BillIsSound(log10, e, c, a);
  }

  lemma OneReceipt(r: Receipt)
    ensures TotalIssue([r]) == Issue(r)
    ensures SoundSplit(r.bill) ==> SoundReceipts([r])
  {
    assert [r][1..] == [];
  }

  /** Nothing stays held, the hold was opened once, and the supply moved by what
      the receipts say. */
  ghost predicate SafeRun(q: Request, b0: Book, run: SendRun, owners: set<string>)
  {
    var b := run.economy.book;
    && Audited(b)
    && (forall o :: SameHolds(b0, b, o))
    && (forall o, id :: Opens(b, o, id) == Opens(b0, o, id)
          + (if o == q.source && id == SendHoldId(q.messageId) then 1 else 0))
    && Supply(b, owners) == Supply(b0, owners) + TotalIssue(run.receipts)
    && SoundReceipts(run.receipts)
  }

  lemma AnsweredIsSafe(log10: real -> real, q: Request, b0: Book, e: Economy, c: Charge, a: Answer,
                       owners: set<string>)
    requires Reputation.IsLog10(log10) && Priced(c) && Parties(c) <= owners
    requires c.caller == q.source && c.holdId == SendHoldId(q.messageId)
    requires OnlyHeld(q, b0, e.book, owners)
    ensures SafeRun(q, b0, SendRun(SettleOrRefund(log10, e, c, a), Replied, [ReceiptFor(log10, e, c, a)]), owners)
  {
    AnswerSettled(log10, q, b0, e, c, a, owners);
    ReceiptIsSound(log10, e, c, a);
    OneReceipt(ReceiptFor(log10, e, c, a));
  }

  lemma RefundedIsSafe(q: Request, b0: Book, e: Economy, result: SendResult, owners: set<string>)
    requires OnlyHeld(q, b0, e.book, owners) && q.source in owners
    ensures var refund := Entry(q.source, Refund(SendHoldId(q.messageId)));
      SafeRun(q, b0, SendRun(e.(book := Post(e.book, refund).book), result, []), owners)
  {
    HoldRefunded(q, b0, e.book, owners);
  }

  function AfterHold(q: Request, e: Economy, server: Server): Economy
  {
    e.(book := Post(e.book, Entry(q.source, Hold(SendHoldId(q.messageId), HoldAmount(q, server)))).book)
  }

  lemma SendGetUnfolds(log10: real -> real, q: Request, target: string, e: Economy, outcome: SendOutcome,
                       server: Server)
    requires SendHeld(q, target, e.book) && FirstServerFor(q.servers, OrgOf(target)) == Some(server)
    ensures var e1, c := AfterHold(q, e, server), SendCharge(q, server);
      SendGet(log10, q, target, e, outcome)
        == match outcome
           case Answered(a) => SendRun(SettleOrRefund(log10, e1, c, a), Replied, [ReceiptFor(log10, e1, c, a)])
           case _ =>
             SendRun(e1.(book := Post(e1.book, Entry(q.source, Refund(SendHoldId(q.messageId)))).book),
                     if outcome.SendRaised? then Failed else NoReply, [])
  {
  }

  lemma SendHeldIsSafe(log10: real -> real, q: Request, target: string, e: Economy, outcome: SendOutcome,
                       owners: set<string>)
    requires Reputation.IsLog10(log10) && WellPriced(q) && Audited(e.book) && Pool(q) <= owners
    requires !IsOpen(e.book, q.source, SendHoldId(q.messageId)) && SendHeld(q, target, e.book)
    ensures SafeRun(q, e.book, SendGet(log10, q, target, e, outcome), owners)
  {
    FirstServerListed(q.servers, OrgOf(target));
    var server := FirstServerFor(q.servers, OrgOf(target)).value;
    HoldPlaced(q, e.book, HoldAmount(q, server), owners);
    var e1 := AfterHold(q, e, server);
    SendGetUnfolds(log10, q, target, e, outcome, server);
    if outcome.Answered? {
      BoundLeafListed(q, server);
      assert Parties(SendCharge(q, server)) <= Pool(q);
      AnsweredIsSafe(log10, q, e.book, e1, SendCharge(q, server), outcome.answer, owners);
    } else {
      RefundedIsSafe(q, e.book, e1, if outcome.SendRaised? then Failed else NoReply, owners);
    }
  }

  /** The same promises for a single request: nothing stays held, the one hold is
      closed once, and the supply moves by what the settlement issued. */
  lemma SendGetIsSafe(log10: real -> real, q: Request, target: string, e: Economy, outcome: SendOutcome,
                      owners: set<string>)
    requires Reputation.IsLog10(log10) && WellPriced(q) && Audited(e.book) && Pool(q) <= owners
    requires !IsOpen(e.book, q.source, SendHoldId(q.messageId))
    ensures var run := SendGet(log10, q, target, e, outcome);
      && Audited(run.economy.book)
      && (forall o :: SameHolds(e.book, run.economy.book, o))
      && (forall o, id ::
            var once := if SendHeld(q, target, e.book) && o == q.source && id == SendHoldId(q.messageId) then 1 else 0;
            && Opens(run.economy.book, o, id) == Opens(e.book, o, id) + once
            && Closings(run.economy.book, o, id) == Closings(e.book, o, id) + once)
      && Supply(run.economy.book, owners) == Supply(e.book, owners) + TotalIssue(run.receipts)
      && SoundReceipts(run.receipts)
  {
    var run := SendGet(log10, q, target, e, outcome);
    FirstServerListed(q.servers, OrgOf(target));
    if SendHeld(q, target, e.book) {
      SendHeldIsSafe(log10, q, target, e, outcome, owners);
    }
    forall o, id
      ensures Closings(run.economy.book, o, id) == Closings(e.book, o, id)
        + (if SendHeld(q, target, e.book) && o == q.source && id == SendHoldId(q.messageId) then 1 else 0)
    {
      OpensMatchClosings(e.book, o, id);
      OpensMatchClosings(run.economy.book, o, id);
      assert SameHolds(e.book, run.economy.book, o);
    }
  }

  lemma SendGetSupply(log10: real -> real, q: Request, target: string, e: Economy, outcome: SendOutcome,
                      owners: set<string>)
    requires Reputation.IsLog10(log10) && WellPriced(q) && Audited(e.book) && Pool(q) <= owners
    requires !IsOpen(e.book, q.source, SendHoldId(q.messageId))
    ensures var run := SendGet(log10, q, target, e, outcome);
      Supply(run.economy.book, owners) == Supply(e.book, owners) + TotalIssue(run.receipts)
      && SoundReceipts(run.receipts)
  {
    SendGetIsSafe(log10, q, target, e, outcome, owners);
  }

  /** A run has a receipt only for an answer, and the answer's own fault on it. */
  lemma SendGetFaults(log10: real -> real, q: Request, target: string, e: Economy, outcome: SendOutcome)
    ensures forall r :: r in SendGet(log10, q, target, e, outcome).receipts ==>
      outcome.Answered? && r.fault == outcome.answer.fault
  {
    var found := FirstServerFor(q.servers, OrgOf(target));
    if found.Some? && SendHeld(q, target, e.book) {
      SendGetUnfolds(log10, q, target, e, outcome, found.value);
    }
  }

  /** Conservation for a single request, as for a broadcast. */
  lemma SendGetConserves(log10: real -> real, q: Request, target: string, e: Economy, outcome: SendOutcome,
                         owners: set<string>)
    requires Reputation.IsLog10(log10) && WellPriced(q) && Audited(e.book) && Pool(q) <= owners
    requires !IsOpen(e.book, q.source, SendHoldId(q.messageId))
    requires outcome.Answered? ==> outcome.answer.fault.NoFault?
    ensures var run := SendGet(log10, q, target, e, outcome);
      && Supply(run.economy.book, owners) == Supply(e.book, owners) + Shortfalls(run.receipts)
      && (Supply(run.economy.book, owners) == Supply(e.book, owners)
          <==> forall r :: r in run.receipts && r.covered ==> r.bill.toServer >= 0.0)
  {
    SendGetSupply(log10, q, target, e, outcome, owners);
    SendGetFaults(log10, q, target, e, outcome);
    UninterruptedIssue(SendGet(log10, q, target, e, outcome).receipts);
  }
}
