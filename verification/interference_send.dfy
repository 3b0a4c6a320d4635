/** SEND-GET among others: other parties use every wallet before its hold and while
    it is under way, and the infrastructure may fail in the hold and in the refund. */
module InterferenceSend {
  import opened Common
  import opened Wallets
  import opened Ledger
  import opened Broker
  import opened Dispatch
  import opened SendGets
  import opened Interference
  import Reputation

  /** What others do before the hold and during the flight; whether the hold raises
      after its retries, and whether a refund does. */
  datatype Flight = Flight(before: Gap, during: Gap, stop: bool, lost: bool)

  /** How it ended: the book, whether the hold was placed, the receipts, and what
      others added to the supply. */
  datatype SendAmid = SendAmid(book: Book, held: bool, receipts: seq<Receipt>, moved: real)

  function SendHold(q: Request, server: Server): Entry
  {
    Entry(q.source, Hold(SendHoldId(q.messageId), HoldAmount(q, server)))
  }

  function SendRefund(q: Request): Entry { Entry(q.source, Refund(SendHoldId(q.messageId))) }

  /** From a placed hold to the end. */
  function Answering(log10: real -> real, q: Request, server: Server, e: Economy, outcome: SendOutcome, moved: real,
                     lost: bool): SendAmid
  {
    match outcome
    case Answered(a) =>
      var c := SendCharge(q, server);
      SendAmid(SettledBook(log10, e, c, a, lost), true, [ReceiptFor(log10, e, c, a)], moved)
    case _ => SendAmid(if lost then e.book else Post(e.book, SendRefund(q)).book, true, [], moved)
  }

  function Airborne(e: Economy, b: Book, during: Gap): Economy
  {
    Economy(PostEach(b, during.foreign), e.reputations + during.records)
  }

  /** From the hold, which is granted on book `b`, to the end. */
  function Departed(log10: real -> real, q: Request, server: Server, e: Economy, b: Book, outcome: SendOutcome, f: Flight,
                    moved: real): SendAmid
  {
    var placed := Post(b, SendHold(q, server)).book;
    Answering(log10, q, server, Airborne(e, placed, f.during), outcome, moved + NetEach(placed, f.during.foreign), f.lost)
  }

  function SendGetAmid(log10: real -> real, q: Request, target: string, e: Economy, outcome: SendOutcome, f: Flight)
    : SendAmid
  {
    var b, moved := PostEach(e.book, f.before.foreign), NetEach(e.book, f.before.foreign);
    match FirstServerFor(q.servers, OrgOf(target))
    case None => SendAmid(b, false, [], moved)
    case Some(server) =>
      var hold := Post(b, SendHold(q, server));
      if f.stop || hold.error.Some? then SendAmid(b, false, [], moved)
      else Departed(log10, q, server, e.(reputations := e.reputations + f.before.records), b, outcome, f, moved)
  }

  /** The hold stays open if it was placed, its refund was lost, and no settlement
      had released it. */
  predicate LeftOpen(run: SendAmid, lost: bool)
  {
    run.held && lost && forall r :: r in run.receipts ==> !Released(r)
  }

  predicate Abroad(q: Request, gap: Gap, owners: set<string>)
  {
    forall e :: e in gap.foreign ==>
      e.owner in owners && (e.owner == q.source && !e.op.Credit? ==> e.op.id != SendHoldId(q.messageId))
  }

  // ---- one hold ----

  /** The hold of the request is open or not, and was opened that often since `b0`. */
  ghost predicate Single(q: Request, b0: Book, b: Book, times: nat, open: bool)
  {
    var id := SendHoldId(q.messageId);
    && Audited(b)
    && (IsOpen(b, q.source, id) <==> open)
    && Opens(b, q.source, id) == Opens(b0, q.source, id) + times
  }

  lemma {:induction false} OthersKeepSingle(q: Request, b0: Book, b: Book, times: nat, open: bool, entries: seq<Entry>)
    requires Single(q, b0, b, times, open)
    requires forall e :: e in entries && e.owner == q.source && !e.op.Credit? ==> e.op.id != SendHoldId(q.messageId)
    ensures Single(q, b0, PostEach(b, entries), times, open)
    decreases |entries|
  {
    if entries != [] {
      var e := entries[0];
      PostKeepsAudited(b, e);
      PostOpens(b, e, q.source, SendHoldId(q.messageId));
      OthersKeepSingle(q, b0, Post(b, e).book, times, open, entries[1..]);
    }
  }

  lemma GapKeeps(q: Request, b0: Book, b: Book, times: nat, open: bool, gap: Gap, owners: set<string>)
    requires Single(q, b0, b, times, open) && Abroad(q, gap, owners)
    ensures Single(q, b0, PostEach(b, gap.foreign), times, open)
    ensures Supply(PostEach(b, gap.foreign), owners) == Supply(b, owners) + NetEach(b, gap.foreign)
  {
    OthersKeepSingle(q, b0, b, times, open, gap.foreign);
    GapMoves(b, gap.foreign, owners);
  }

  lemma HoldOpens(q: Request, b0: Book, b: Book, server: Server, owners: set<string>)
    requires Single(q, b0, b, 0, false) && Post(b, SendHold(q, server)).error.None? && q.source in owners
    ensures var after := Post(b, SendHold(q, server)).book;
      Single(q, b0, after, 1, true) && Supply(after, owners) == Supply(b, owners)
  {
    PostKeepsAudited(b, SendHold(q, server));
    PostOpens(b, SendHold(q, server), q.source, SendHoldId(q.messageId));
    PostMovesSupply(b, SendHold(q, server), owners);
  }

  lemma RefundCloses(q: Request, b0: Book, b: Book, owners: set<string>)
    requires Single(q, b0, b, 1, true) && q.source in owners
    ensures var after := Post(b, SendRefund(q)).book;
      Single(q, b0, after, 1, false) && Supply(after, owners) == Supply(b, owners)
  {
    PostKeepsAudited(b, SendRefund(q));
    PostOpens(b, SendRefund(q), q.source, SendHoldId(q.messageId));
    PostMovesSupply(b, SendRefund(q), owners);
  }

  lemma AnswerCloses(log10: real -> real, q: Request, b0: Book, e: Economy, c: Charge, a: Answer, lost: bool,
                     owners: set<string>)
    requires Reputation.IsLog10(log10) && Priced(c) && Parties(c) <= owners
    requires c.caller == q.source && c.holdId == SendHoldId(q.messageId) && Single(q, b0, e.book, 1, true)
    ensures var r, after := ReceiptFor(log10, e, c, a), SettledBook(log10, e, c, a, lost);
      Single(q, b0, after, 1, lost && !Released(r)) && Supply(after, owners) == Supply(e.book, owners) + Issue(r)
  {
    if lost {
      SettledAlone(log10, e, c, a);
      SettledAloneSupply(log10, e, c, a, owners);
    } else {
      SettleOrRefundEffect(log10, e, c, a, owners);
    }
  }

  // ---- the theorem ----

  /** Opened once if it was placed, closed once unless it is left open, and the
      supply moved by what the settlement issued and what others added. */
  ghost predicate Exact(q: Request, b0: Book, run: SendAmid, lost: bool, owners: set<string>)
  {
    var id, times := SendHoldId(q.messageId), if run.held then 1 else 0;
    var left := LeftOpen(run, lost);
    && (IsOpen(run.book, q.source, id) <==> left)
    && Opens(run.book, q.source, id) == Opens(b0, q.source, id) + times
    && Closings(run.book, q.source, id) == Closings(b0, q.source, id) + times - (if left then 1 else 0)
    && Supply(run.book, owners) == Supply(b0, owners) + TotalIssue(run.receipts) + run.moved
  }

  lemma SingleIsExact(q: Request, b0: Book, run: SendAmid, lost: bool, owners: set<string>)
    requires Audited(b0) && !IsOpen(b0, q.source, SendHoldId(q.messageId))
    requires Single(q, b0, run.book, if run.held then 1 else 0, LeftOpen(run, lost))
    requires Supply(run.book, owners) == Supply(b0, owners) + TotalIssue(run.receipts) + run.moved
    ensures Exact(q, b0, run, lost, owners)
  {
    OpensMatchClosings(b0, q.source, SendHoldId(q.messageId));
    OpensMatchClosings(run.book, q.source, SendHoldId(q.messageId));
  }

  lemma ReceivedIsExact(q: Request, b0: Book, run: SendAmid, r: Receipt, lost: bool, owners: set<string>)
    requires Audited(b0) && !IsOpen(b0, q.source, SendHoldId(q.messageId))
    requires run.held && run.receipts == [r] && Single(q, b0, run.book, 1, lost && !Released(r))
    requires Supply(run.book, owners) == Supply(b0, owners) + run.moved + Issue(r)
    ensures Exact(q, b0, run, lost, owners)
  {
    OneReceipt(r);
    SingleIsExact(q, b0, run, lost, owners);
  }

  lemma AnsweredIsExact(log10: real -> real, q: Request, b0: Book, server: Server, e: Economy, a: Answer, run: SendAmid,
                        lost: bool, owners: set<string>)
    requires Reputation.IsLog10(log10) && WellPriced(q) && server in q.servers && Pool(q) <= owners
    requires Audited(b0) && !IsOpen(b0, q.source, SendHoldId(q.messageId)) && Single(q, b0, e.book, 1, true)
    requires Supply(e.book, owners) == Supply(b0, owners) + run.moved && run.held
    requires var c := SendCharge(q, server);
      run.book == SettledBook(log10, e, c, a, lost) && run.receipts == [ReceiptFor(log10, e, c, a)]
    ensures Exact(q, b0, run, lost, owners)
  {
    var c := SendCharge(q, server);
    BoundLeafListed(q, server);
    assert Parties(c) <= Pool(q);
    AnswerCloses(log10, q, b0, e, c, a, lost, owners);
    ReceivedIsExact(q, b0, run, ReceiptFor(log10, e, c, a), lost, owners);
  }

  lemma UnansweredIsExact(q: Request, b0: Book, b: Book, run: SendAmid, lost: bool, owners: set<string>)
    requires Audited(b0) && !IsOpen(b0, q.source, SendHoldId(q.messageId)) && Single(q, b0, b, 1, true)
    requires Supply(b, owners) == Supply(b0, owners) + run.moved && run.held && run.receipts == [] && q.source in owners
    requires run.book == if lost then b else Post(b, SendRefund(q)).book
    ensures Exact(q, b0, run, lost, owners)
  {
    if !lost { RefundCloses(q, b0, b, owners); }
    SingleIsExact(q, b0, run, lost, owners);
  }

  lemma AnsweringIsExact(log10: real -> real, q: Request, b0: Book, server: Server, e: Economy, outcome: SendOutcome,
                         run: SendAmid, lost: bool, owners: set<string>)
    requires Reputation.IsLog10(log10) && WellPriced(q) && server in q.servers && Pool(q) <= owners
    requires Audited(b0) && !IsOpen(b0, q.source, SendHoldId(q.messageId)) && Single(q, b0, e.book, 1, true)
    requires Supply(e.book, owners) == Supply(b0, owners) + run.moved
    requires run == Answering(log10, q, server, e, outcome, run.moved, lost)
    ensures Exact(q, b0, run, lost, owners)
  {
    match outcome
    case Answered(a) => AnsweredIsExact(log10, q, b0, server, e, a, run, lost, owners);
    case _ => UnansweredIsExact(q, b0, e.book, run, lost, owners);
  }

  lemma DepartedIsExact(log10: real -> real, q: Request, b0: Book, b: Book, server: Server, e: Economy,
                        outcome: SendOutcome, f: Flight, moved: real, run: SendAmid, owners: set<string>)
    requires Reputation.IsLog10(log10) && WellPriced(q) && server in q.servers && Pool(q) <= owners
    requires Audited(b0) && !IsOpen(b0, q.source, SendHoldId(q.messageId)) && Single(q, b0, b, 0, false)
    requires Post(b, SendHold(q, server)).error.None? && Abroad(q, f.during, owners)
    requires Supply(b, owners) == Supply(b0, owners) + moved
    requires run == Departed(log10, q, server, e, b, outcome, f, moved)
    ensures Exact(q, b0, run, f.lost, owners)
  {
    var placed := Post(b, SendHold(q, server)).book;
    HoldOpens(q, b0, b, server, owners);
    GapKeeps(q, b0, placed, 1, true, f.during, owners);
    AnsweringIsExact(log10, q, b0, server, Airborne(e, placed, f.during), outcome, run, f.lost, owners);
  }

  /** The exact outcome of a single request among arbitrary operations of others and
      failing infrastructure. */
  lemma SendGetAmidIsExact(log10: real -> real, q: Request, target: string, e: Economy, outcome: SendOutcome, f: Flight,
                           owners: set<string>)
    requires Reputation.IsLog10(log10) && WellPriced(q) && Audited(e.book) && Pool(q) <= owners
    requires !IsOpen(e.book, q.source, SendHoldId(q.messageId)) && Abroad(q, f.before, owners) && Abroad(q, f.during, owners)
    ensures Exact(q, e.book, SendGetAmid(log10, q, target, e, outcome, f), f.lost, owners)
  {
    var run := SendGetAmid(log10, q, target, e, outcome, f);
    var b := PostEach(e.book, f.before.foreign);
    GapKeeps(q, e.book, e.book, 0, false, f.before, owners);
    var found := FirstServerFor(q.servers, OrgOf(target));
    if found.Some? && !f.stop && Post(b, SendHold(q, found.value)).error.None? {
      FirstServerListed(q.servers, OrgOf(target));
      DepartedIsExact(log10, q, e.book, b, found.value, e.(reputations := e.reputations + f.before.records), outcome, f,
                      NetEach(e.book, f.before.foreign), run, owners);
    } else {
      SingleIsExact(q, e.book, run, f.lost, owners);
    }
  }

  /** With nobody else about and nothing failing this is the request itself. */
  lemma QuietIsSendGet(log10: real -> real, q: Request, target: string, e: Economy, outcome: SendOutcome)
    ensures var amid := SendGetAmid(log10, q, target, e, outcome, Flight(QUIET, QUIET, false, false));
      var run := SendGet(log10, q, target, e, outcome);
      amid.book == run.economy.book && amid.receipts == run.receipts && amid.moved == 0.0
  {
    assert e.reputations + map[] == e.reputations;
  }
}
