/** CAST-GET among others: between any two of its steps other parties may use every
    wallet, its caller's included, and the infrastructure may fail in the hold loop
    and in any refund. What is then left open, exactly? */
module Interference {
  import opened Common
  import opened Wallets
  import opened Ledger
  import opened Broker
  import opened Dispatch
  import opened CastGets
  import Reputation

  // ---- what others do ----

  /** The wallet operations of others in one gap between two steps, and the
      reputation records they write. */
  datatype Gap = Gap(foreign: seq<Entry>, records: map<string, Reputation.Entry>)

  /** `gaps(k)` comes before step `k`; the hold of target number `stop` raises after
      its retries are exhausted; refunds for the targets in `lost` raise. */
  datatype Trip = Trip(gaps: nat -> Gap, stop: Option<nat>, lost: set<string>)

  function Prefix(q: Request): string { "msg:" + q.messageId + ":t:" }

  /** The hold ids that belong to this broadcast. */
  predicate OwnId(q: Request, id: string) { Prefix(q) <= id }

  predicate IsForeign(q: Request, e: Entry)
  {
    e.owner == q.source && !e.op.Credit? ==> !OwnId(q, e.op.id)
  }

  /** Refused operations raise at whoever tried them and stop nobody else. */
  function PostEach(b: Book, entries: seq<Entry>): Book
    decreases |entries|
  {
    if entries == [] then b else PostEach(Post(b, entries[0]).book, entries[1..])
  }

  /** What the accepted ones among them add to the supply. */
  function NetEach(b: Book, entries: seq<Entry>): real
    decreases |entries|
  {
    if entries == [] then 0.0
    else
      var first := Post(b, entries[0]);
      (if first.error.None? then NetOf(entries[0].op) else 0.0) + NetEach(first.book, entries[1..])
  }

  // ---- the broadcast, step by step ----

  function PlacingAfter(p: Placing, gap: seq<Entry>): Placing { p.(book := PostEach(p.book, gap)) }

  /** The hold loop so far, what others have added to the supply, and whether the
      loop raised. */
  datatype PlacedAmid = PlacedAmid(p: Placing, moved: real, raised: bool)

  function PlaceStep(q: Request, w: PlacedAmid, target: string, k: nat, trip: Trip): PlacedAmid
  {
    var gap := trip.gaps(k).foreign;
    var p, moved := PlacingAfter(w.p, gap), w.moved + NetEach(w.p.book, gap);
    if ServerFor(q.servers, OrgOf(target)).Some? && trip.stop == Some(k) then PlacedAmid(p, moved, true)
    else
      var next := PlaceOne(q, p, target);
      PlacedAmid(next, moved, next.aborted)
  }

  function PlaceAmid(q: Request, w: PlacedAmid, targets: seq<string>, k: nat, trip: Trip): PlacedAmid
    decreases |targets|
  {
    if targets == [] || w.raised then w else PlaceAmid(q, PlaceStep(q, w, targets[0], k, trip), targets[1..], k + 1, trip)
  }

  /** A response is settled as ever, but if the refund after a failed settlement is
      lost, the hold stays as the settlement left it. */
  function CollectOneAmid(log10: real -> real, q: Request, held: map<string, Ctx>, s: Collecting, r: Response,
                          lost: set<string>): Collecting
  {
    if r.source in s.responded || r.source !in held || r.source !in lost then CollectOne(log10, q, held, s, r)
    else
      var c := ChargeFor(q, r.source, held[r.source]);
      Collecting(Settled(log10, s.economy, c, r.answer).economy, s.responded + {r.source},
                 s.receipts + [ReceiptFor(log10, s.economy, c, r.answer)])
  }

  function CollectingAfter(s: Collecting, gap: Gap): Collecting
  {
    s.(economy := Economy(PostEach(s.economy.book, gap.foreign), s.economy.reputations + gap.records))
  }

  datatype CollectedAmid = CollectedAmid(s: Collecting, moved: real)

  function CollectStep(log10: real -> real, q: Request, held: map<string, Ctx>, c: CollectedAmid, r: Response, k: nat,
                       trip: Trip): CollectedAmid
  {
    var gap := trip.gaps(k);
    CollectedAmid(CollectOneAmid(log10, q, held, CollectingAfter(c.s, gap), r, trip.lost),
                  c.moved + NetEach(c.s.economy.book, gap.foreign))
  }

  function CollectAmid(log10: real -> real, q: Request, held: map<string, Ctx>, c: CollectedAmid, rs: seq<Response>,
                       k: nat, trip: Trip): CollectedAmid
    decreases |rs|
  {
    if rs == [] then c
    else CollectAmid(log10, q, held, CollectStep(log10, q, held, c, rs[0], k, trip), rs[1..], k + 1, trip)
  }

  function SweptOne(q: Request, b: Book, target: string, responded: set<string>, lost: set<string>): Book
  {
    if target in responded || target in lost then b
    else Post(b, Entry(q.source, Refund(CastHoldId(q.messageId, target)))).book
  }

  datatype SweptAmid = SweptAmid(book: Book, moved: real)

  function SweepStep(q: Request, w: SweptAmid, target: string, responded: set<string>, k: nat, trip: Trip): SweptAmid
  {
    var gap := trip.gaps(k).foreign;
    SweptAmid(SweptOne(q, PostEach(w.book, gap), target, responded, trip.lost), w.moved + NetEach(w.book, gap))
  }

  function SweepAmid(q: Request, w: SweptAmid, order: seq<string>, responded: set<string>, k: nat, trip: Trip): SweptAmid
    decreases |order|
  {
    if order == [] then w else SweepAmid(q, SweepStep(q, w, order[0], responded, k, trip), order[1..], responded, k + 1, trip)
  }

  /** How it ended: the book, the dictionary of holds, who responded, the receipts,
      what others added to the supply, and whether the hold loop raised. */
  datatype RunAmid = RunAmid(book: Book, held: map<string, Ctx>, responded: set<string>, receipts: seq<Receipt>,
                             moved: real, cut: bool)

  /** The sweep, at the end of a run whose responses came to `c`. */
  function Finished(q: Request, p: Placing, c: CollectedAmid, k: nat, trip: Trip): RunAmid
  {
    var swept := SweepAmid(q, SweptAmid(c.s.economy.book, c.moved), p.order, c.s.responded, k, trip);
    RunAmid(swept.book, p.held, c.s.responded, c.s.receipts, swept.moved, false)
  }

  function Uncollected(e: Economy, w: PlacedAmid): CollectedAmid
  {
    CollectedAmid(Collecting(e.(book := w.p.book), {}, []), w.moved)
  }

  function Delivered(log10: real -> real, q: Request, e: Economy, w: PlacedAmid, delivery: Delivery, k: nat, trip: Trip)
    : RunAmid
  {
    match delivery
    case BusRaised => Finished(q, w.p, Uncollected(e, w), k, trip)
    case Replies(rs) => Finished(q, w.p, CollectAmid(log10, q, w.p.held, Uncollected(e, w), rs, k, trip), k + |rs|, trip)
  }

  function Unplaced(e: Economy): PlacedAmid
  {
    PlacedAmid(Placing(e.book, map[], [], [], map[], false), 0.0, false)
  }

  function CastGetAmid(log10: real -> real, q: Request, targets: seq<string>, e: Economy, delivery: Delivery, trip: Trip)
    : RunAmid
  {
    var w := PlaceAmid(q, Unplaced(e), targets, 0, trip);
    if w.raised || w.p.deliverable == [] then RunAmid(w.p.book, w.p.held, {}, [], w.moved, w.raised)
    else Delivered(log10, q, e, w, delivery, |targets|, trip)
  }

  /** Did the settlement get as far as releasing the hold? */
  predicate Released(r: Receipt) { r.covered && r.fault != RaisesAfter(0) }

  function Unreleased(receipts: seq<Receipt>): set<string>
  {
    set r | r in receipts && !Released(r) :: r.charge.holdId
  }

  /** The holds that stay open: all of them if the hold loop was cut short, and
      otherwise those whose refund was lost, unless a settlement had released them. */
  function LeftOpen(q: Request, run: RunAmid, lost: set<string>): set<string>
  {
    if run.cut then HoldIds(q, run.held.Keys)
    else HoldIds(q, (run.held.Keys - run.responded) * lost) + HoldIds(q, run.held.Keys * lost) * Unreleased(run.receipts)
  }

  // ---- what every step keeps ----

  /** Of the broadcast's own ids exactly `open` are held, and since book `b0` exactly
      those in `placed` were opened, once each. */
  ghost predicate Mine(q: Request, b0: Book, b: Book, placed: set<string>, open: set<string>)
  {
    && Audited(b)
    && forall id :: OwnId(q, id) ==>
         && (IsOpen(b, q.source, id) <==> id in open)
         && Opens(b, q.source, id) == Opens(b0, q.source, id) + (if id in placed then 1 else 0)
  }

  lemma OwnIds(q: Request, target: string)
    ensures OwnId(q, CastHoldId(q.messageId, target))
  {
  }

  /** A foreign operation, accepted or refused, leaves the own holds alone. */
  lemma ForeignPost(q: Request, b0: Book, b: Book, placed: set<string>, open: set<string>, e: Entry)
    requires Mine(q, b0, b, placed, open) && IsForeign(q, e)
    ensures Mine(q, b0, Post(b, e).book, placed, open)
    ensures SameOwn(q, b, Post(b, e).book)
  {
    PostKeepsAudited(b, e);
    forall id | OwnId(q, id)
      ensures Opens(Post(b, e).book, q.source, id) == Opens(b, q.source, id)
      ensures IsOpen(Post(b, e).book, q.source, id) <==> IsOpen(b, q.source, id)
    {
      PostOpens(b, e, q.source, id);
    }
  }

  /** The own holds have the same amounts in both books. */
  ghost predicate SameOwn(q: Request, b: Book, after: Book)
  {
    forall id :: OwnId(q, id) && IsOpen(b, q.source, id) ==>
      && IsOpen(after, q.source, id)
      && WalletOf(after, q.source).holds[id] == WalletOf(b, q.source).holds[id]
  }

  lemma {:induction false} ForeignGap(q: Request, b0: Book, b: Book, placed: set<string>, open: set<string>,
                                      entries: seq<Entry>)
    requires Mine(q, b0, b, placed, open) && forall e :: e in entries ==> IsForeign(q, e)
    ensures Mine(q, b0, PostEach(b, entries), placed, open) && SameOwn(q, b, PostEach(b, entries))
    decreases |entries|
  {
    if entries != [] {
      ForeignPost(q, b0, b, placed, open, entries[0]);
      ForeignGap(q, b0, Post(b, entries[0]).book, placed, open, entries[1..]);
    }
  }

  lemma {:induction false} GapMoves(b: Book, entries: seq<Entry>, owners: set<string>)
    requires forall e :: e in entries ==> e.owner in owners
    ensures Supply(PostEach(b, entries), owners) == Supply(b, owners) + NetEach(b, entries)
    decreases |entries|
  {
    if entries != [] {
      PostMovesSupply(b, entries[0], owners);
      GapMoves(Post(b, entries[0]).book, entries[1..], owners);
    }
  }

  /** Everything others do is foreign and stays among `owners`. */
  ghost predicate Abroad(q: Request, trip: Trip, owners: set<string>)
  {
    forall k: nat :: GapAbroad(q, trip.gaps(k).foreign, owners)
  }

  predicate GapAbroad(q: Request, entries: seq<Entry>, owners: set<string>)
  {
    forall e :: e in entries ==> IsForeign(q, e) && e.owner in owners
  }

  // ---- placing ----

  ghost predicate PlacingAmid(q: Request, b0: Book, p: Placing)
  {
    && Mine(q, b0, p.book, HoldIds(q, p.held.Keys), HoldIds(q, p.held.Keys))
    && Amounts(q, WalletOf(p.book, q.source).holds, p.held)
    && Bookkeeping(q, p)
  }

  lemma AmountsSurvive(q: Request, b: Book, after: Book, held: map<string, Ctx>)
    requires Amounts(q, WalletOf(b, q.source).holds, held) && SameOwn(q, b, after)
    ensures Amounts(q, WalletOf(after, q.source).holds, held)
  {
    forall t | t in held
      ensures CastHoldId(q.messageId, t) in WalletOf(after, q.source).holds
      ensures WalletOf(after, q.source).holds[CastHoldId(q.messageId, t)] == HoldAmount(q, held[t].server)
    {
      OwnIds(q, t);
      assert IsOpen(b, q.source, CastHoldId(q.messageId, t));
    }
  }

  /** A hold of the own id `id` is granted, found in place, or refused for want of funds. */
  lemma OwnHold(q: Request, b0: Book, b: Book, ids: set<string>, id: string, amount: real)
    requires Mine(q, b0, b, ids, ids) && OwnId(q, id) && amount >= 0.0
    requires id in ids ==> WalletOf(b, q.source).holds[id] == amount
    ensures var posting := Post(b, Entry(q.source, Hold(id, amount)));
      && (posting.error == None || posting.error == Some(InsufficientFunds))
      && (posting.error == None ==>
            && Mine(q, b0, posting.book, ids + {id}, ids + {id})
            && WalletOf(posting.book, q.source).holds == WalletOf(b, q.source).holds[id := amount])
      && (posting.error != None ==> posting.book == b)
  {
    var e := Entry(q.source, Hold(id, amount));
    PostKeepsAudited(b, e);
    var after := Post(b, e).book;
    if Post(b, e).error == None {
      forall own | OwnId(q, own)
        ensures IsOpen(after, q.source, own) <==> own in ids + {id}
        ensures Opens(after, q.source, own) == Opens(b0, q.source, own) + (if own in ids + {id} then 1 else 0)
      {
        PostOpens(b, e, q.source, own);
      }
    }
  }

  lemma HoldIdsMember(q: Request, targets: set<string>, target: string)
    ensures CastHoldId(q.messageId, target) in HoldIds(q, targets) <==> target in targets
  {
    if CastHoldId(q.messageId, target) in HoldIds(q, targets) {
      var t :| t in targets && CastHoldId(q.messageId, t) == CastHoldId(q.messageId, target);
      CastHoldIdInjective(q.messageId, t, target);
    }
  }

  /** What one placing comes to once its hold attempt is decided. */
  lemma PlaceOneShape(q: Request, p: Placing, target: string, server: Server)
    requires ServerFor(q.servers, OrgOf(target)) == Some(server)
    ensures var posting := Post(p.book, Entry(q.source, Hold(CastHoldId(q.messageId, target), HoldAmount(q, server))));
      && (posting.error == None ==> PlaceOne(q, p, target) == Granted(q, p, target, server, posting.book))
      && (posting.error == Some(InsufficientFunds) ==>
            PlaceOne(q, p, target) == p.(leafCache := CacheLeaf(q, p.leafCache, server)))
  {
  }

  lemma HeldAmount(q: Request, p: Placing, target: string, server: Server)
    requires Amounts(q, WalletOf(p.book, q.source).holds, p.held) && Bookkeeping(q, p)
    requires ServerFor(q.servers, OrgOf(target)) == Some(server)
    ensures target in p.held ==>
      && CastHoldId(q.messageId, target) in WalletOf(p.book, q.source).holds
      && WalletOf(p.book, q.source).holds[CastHoldId(q.messageId, target)] == HoldAmount(q, server)
  {
  }

  lemma GrantedAmid(q: Request, b0: Book, p: Placing, target: string, server: Server, after: Book)
    requires PlacingAmid(q, b0, p) && server.baseRate >= 0.0
    requires ServerFor(q.servers, OrgOf(target)) == Some(server)
    requires var ids := HoldIds(q, p.held.Keys) + {CastHoldId(q.messageId, target)}; Mine(q, b0, after, ids, ids)
    requires WalletOf(after, q.source).holds
      == WalletOf(p.book, q.source).holds[CastHoldId(q.messageId, target) := HoldAmount(q, server)]
    ensures PlacingAmid(q, b0, Granted(q, p, target, server, after))
  {
    GrantedBooks(q, p, target, server, after);
    assert HoldIds(q, p.held.Keys + {target}) == HoldIds(q, p.held.Keys) + {CastHoldId(q.messageId, target)};
  }

  lemma PlaceBilledAmid(q: Request, b0: Book, p: Placing, target: string, server: Server)
    requires PlacingAmid(q, b0, p) && server.baseRate >= 0.0
    requires ServerFor(q.servers, OrgOf(target)) == Some(server)
    ensures PlacingAmid(q, b0, PlaceOne(q, p, target))
  {
    var id, amount, ids := CastHoldId(q.messageId, target), HoldAmount(q, server), HoldIds(q, p.held.Keys);
    HoldAmountNonNegative(q, server);
    HoldIdsMember(q, p.held.Keys, target);
    HeldAmount(q, p, target, server);
    OwnIds(q, target);
    OwnHold(q, b0, p.book, ids, id, amount);
    PlaceOneShape(q, p, target, server);
    var posting := Post(p.book, Entry(q.source, Hold(id, amount)));
    if posting.error == None {
      GrantedAmid(q, b0, p, target, server, posting.book);
    } else {
      CacheLeafKeeps(q, p, server);
    }
  }

  lemma PlaceOneAmid(q: Request, b0: Book, p: Placing, target: string)
    requires WellPriced(q) && PlacingAmid(q, b0, p)
    ensures PlacingAmid(q, b0, PlaceOne(q, p, target))
  {
    var found := ServerFor(q.servers, OrgOf(target));
    if found.Some? {
      ServerForListed(q.servers, OrgOf(target));
      PlaceBilledAmid(q, b0, p, target, found.value);
    }
  }

  lemma OnePlacingKeepsSupply(q: Request, p: Placing, target: string, owners: set<string>)
    requires q.source in owners
    ensures Supply(PlaceOne(q, p, target).book, owners) == Supply(p.book, owners)
  {
    var found := ServerFor(q.servers, OrgOf(target));
    if found.Some? {
      PostMovesSupply(p.book, Entry(q.source, Hold(CastHoldId(q.messageId, target), HoldAmount(q, found.value))), owners);
    }
  }

  lemma GapBeforePlacing(q: Request, b0: Book, p: Placing, gap: seq<Entry>, owners: set<string>)
    requires PlacingAmid(q, b0, p) && GapAbroad(q, gap, owners)
    ensures PlacingAmid(q, b0, PlacingAfter(p, gap))
    ensures Supply(PlacingAfter(p, gap).book, owners) == Supply(p.book, owners) + NetEach(p.book, gap)
  {
    ForeignGap(q, b0, p.book, HoldIds(q, p.held.Keys), HoldIds(q, p.held.Keys), gap);
    AmountsSurvive(q, p.book, PostEach(p.book, gap), p.held);
    GapMoves(p.book, gap, owners);
  }

  /** Nothing is gained or lost in the hold loop but what others add. */
  ghost predicate PlacedWell(q: Request, e: Economy, w: PlacedAmid, trip: Trip, owners: set<string>)
  {
    && PlacingAmid(q, e.book, w.p)
    && (w.raised ==> trip.stop.Some?)
    && Supply(w.p.book, owners) == Supply(e.book, owners) + w.moved
  }

  lemma NotAborted(q: Request, b0: Book, p: Placing)
    requires PlacingAmid(q, b0, p)
    ensures !p.aborted
  {
  }

  lemma PlaceStepKeeps(q: Request, e: Economy, w: PlacedAmid, target: string, k: nat, trip: Trip, owners: set<string>)
    requires WellPriced(q) && PlacedWell(q, e, w, trip, owners) && q.source in owners
    requires GapAbroad(q, trip.gaps(k).foreign, owners)
    ensures PlacedWell(q, e, PlaceStep(q, w, target, k, trip), trip, owners)
  {
    var p := PlacingAfter(w.p, trip.gaps(k).foreign);
    GapBeforePlacing(q, e.book, w.p, trip.gaps(k).foreign, owners);
    PlaceOneAmid(q, e.book, p, target);
    NotAborted(q, e.book, PlaceOne(q, p, target));
    OnePlacingKeepsSupply(q, p, target, owners);
  }

  lemma {:induction false} PlaceAmidKeeps(q: Request, e: Economy, w: PlacedAmid, targets: seq<string>, k: nat, trip: Trip,
                                          owners: set<string>)
    requires WellPriced(q) && PlacedWell(q, e, w, trip, owners) && Abroad(q, trip, owners) && q.source in owners
    ensures PlacedWell(q, e, PlaceAmid(q, w, targets, k, trip), trip, owners)
    decreases |targets|
  {
    if targets != [] && !w.raised {
      assert GapAbroad(q, trip.gaps(k).foreign, owners);
      PlaceStepKeeps(q, e, w, targets[0], k, trip, owners);
      PlaceAmidKeeps(q, e, PlaceStep(q, w, targets[0], k, trip), targets[1..], k + 1, trip, owners);
    }
  }

  // ---- settling ----

  /** One step of the broadcast closed the holds `ids` and touched no other of its own. */
  lemma CloseSome(q: Request, b0: Book, b: Book, after: Book, placed: set<string>, open: set<string>, ids: set<string>)
    requires Mine(q, b0, b, placed, open) && Audited(after)
    requires WalletOf(after, q.source).holds == WalletOf(b, q.source).holds - ids
    requires forall i :: Opens(after, q.source, i) == Opens(b, q.source, i)
    ensures Mine(q, b0, after, placed, open - ids)
  {
  }

  lemma SettledAlone(log10: real -> real, e: Economy, c: Charge, a: Answer)
    requires Reputation.IsLog10(log10) && Priced(c) && Audited(e.book) && IsOpen(e.book, c.caller, c.holdId)
    ensures var after := Settled(log10, e, c, a).economy.book;
      var released := Released(ReceiptFor(log10, e, c, a));
      && Audited(after)
      && WalletOf(after, c.caller).holds == WalletOf(e.book, c.caller).holds - (if released then {c.holdId} else {})
      && (forall i :: Opens(after, c.caller, i) == Opens(e.book, c.caller, i))
  {
    var s := Bill(log10, e, c, a);
    BillIsSound(log10, e, c, a);
    PostedSettlement(e.book, c, s, a.fault);
    PostAllKeepsAudited(e.book, Reached(SettleEntries(c, s), a.fault));
  }

  lemma SettledAloneSupply(log10: real -> real, e: Economy, c: Charge, a: Answer, owners: set<string>)
    requires Reputation.IsLog10(log10) && Priced(c)
    requires IsOpen(e.book, c.caller, c.holdId) && Parties(c) <= owners
    ensures Supply(Settled(log10, e, c, a).economy.book, owners)
         == Supply(e.book, owners) + Issue(ReceiptFor(log10, e, c, a))
  {
    var s := Bill(log10, e, c, a);
    var entries := Reached(SettleEntries(c, s), a.fault);
    BillIsSound(log10, e, c, a);
    PostedSettlement(e.book, c, s, a.fault);
    PayoutsAreCredits(c, s);
    if PostAll(e.book, entries).error.None? { PostAllMovesSupply(e.book, entries, owners); }
  }

  ghost predicate CollectingAmid(q: Request, b0: Book, held: map<string, Ctx>, s: Collecting, lost: set<string>)
  {
    Mine(q, b0, s.economy.book, HoldIds(q, held.Keys), StillOpen(q, held, s, lost))
  }

  /** While responses come in: what has not responded is open, and what responded is
      open only if neither its settlement nor a refund closed it. */
  function StillOpen(q: Request, held: map<string, Ctx>, s: Collecting, lost: set<string>): set<string>
  {
    HoldIds(q, held.Keys - s.responded) + HoldIds(q, held.Keys * lost) * Unreleased(s.receipts)
  }

  /** Receipts are for targets that responded. */
  ghost predicate ReceiptsOf(q: Request, held: map<string, Ctx>, s: Collecting)
  {
    forall r :: r in s.receipts ==> r.charge.holdId in HoldIds(q, held.Keys * s.responded)
  }

  lemma OneMoreReceipt(q: Request, held: map<string, Ctx>, s: Collecting, t: string, r: Receipt, e: Economy,
                       lost: set<string>)
    requires ReceiptsOf(q, held, s) && t in held && t !in s.responded && r.charge.holdId == CastHoldId(q.messageId, t)
    ensures var after := Collecting(e, s.responded + {t}, s.receipts + [r]);
      && ReceiptsOf(q, held, after)
      && StillOpen(q, held, after, lost)
           == StillOpen(q, held, s, lost) - (if t in lost && !Released(r) then {} else {r.charge.holdId})
  {
    var after := Collecting(e, s.responded + {t}, s.receipts + [r]);
    var id := r.charge.holdId;
    forall i | i in Unreleased(s.receipts) ensures i != id {
      HoldIdsMember(q, held.Keys * s.responded, t);
    }
    assert Unreleased(after.receipts) == Unreleased(s.receipts) + (if Released(r) then {} else {id});
    HoldIdsMember(q, held.Keys * lost, t);
    HoldIdsMember(q, held.Keys - s.responded, t);
    assert held.Keys - s.responded == (held.Keys - after.responded) + {t};
    assert HoldIds(q, held.Keys - s.responded) == HoldIds(q, held.Keys - after.responded) + {id};
    HoldIdsMember(q, held.Keys - after.responded, t);
    assert held.Keys * after.responded == held.Keys * s.responded + {t};
    assert HoldIds(q, held.Keys * after.responded) == HoldIds(q, held.Keys * s.responded) + {id};
  }

  /** The settlement of one response, with or without its refund. */
  function SettledBook(log10: real -> real, e: Economy, c: Charge, a: Answer, lost: bool): Book
  {
    if lost then Settled(log10, e, c, a).economy.book else SettleOrRefund(log10, e, c, a).book
  }

  lemma SettlementCloses(log10: real -> real, q: Request, b0: Book, e: Economy, c: Charge, a: Answer, lost: bool,
                         placed: set<string>, open: set<string>, owners: set<string>)
    requires Reputation.IsLog10(log10) && Priced(c) && Parties(c) <= owners && c.caller == q.source
    requires Mine(q, b0, e.book, placed, open) && OwnId(q, c.holdId) && c.holdId in open
    ensures var receipt := ReceiptFor(log10, e, c, a);
      Mine(q, b0, SettledBook(log10, e, c, a, lost), placed,
           open - (if lost && !Released(receipt) then {} else {c.holdId}))
    ensures Supply(SettledBook(log10, e, c, a, lost), owners) == Supply(e.book, owners) + Issue(ReceiptFor(log10, e, c, a))
  {
    assert IsOpen(e.book, q.source, c.holdId);
    if lost {
      SettledAlone(log10, e, c, a);
      SettledAloneSupply(log10, e, c, a, owners);
      var ids := if Released(ReceiptFor(log10, e, c, a)) then {c.holdId} else {};
      CloseSome(q, b0, e.book, SettledBook(log10, e, c, a, lost), placed, open, ids);
    } else {
      SettleOrRefundEffect(log10, e, c, a, owners);
      CloseSome(q, b0, e.book, SettledBook(log10, e, c, a, lost), placed, open, {c.holdId});
    }
  }

  lemma SettleOneAmid(log10: real -> real, q: Request, b0: Book, held: map<string, Ctx>, s: Collecting, r: Response,
                      lost: set<string>, owners: set<string>)
    requires Reputation.IsLog10(log10) && WellPriced(q) && KnownContexts(q, held) && Pool(q) <= owners
    requires CollectingAmid(q, b0, held, s, lost) && ReceiptsOf(q, held, s)
    requires r.source in held && r.source !in s.responded
    ensures var after := CollectOneAmid(log10, q, held, s, r, lost);
      && CollectingAmid(q, b0, held, after, lost) && ReceiptsOf(q, held, after)
      && Supply(after.economy.book, owners) - TotalIssue(after.receipts)
           == Supply(s.economy.book, owners) - TotalIssue(s.receipts)
  {
    var c := ChargeFor(q, r.source, held[r.source]);
    var receipt := ReceiptFor(log10, s.economy, c, r.answer);
    var after := CollectOneAmid(log10, q, held, s, r, lost);
    ServerForListed(q.servers, OrgOf(r.source));
    OwnIds(q, r.source);
    HoldIdsMember(q, held.Keys - s.responded, r.source);
    assert Parties(c) <= Pool(q);
    SettlementCloses(log10, q, b0, s.economy, c, r.answer, r.source in lost, HoldIds(q, held.Keys),
                     StillOpen(q, held, s, lost), owners);
    TotalIssueAppend(s.receipts, receipt);
    OneMoreReceipt(q, held, s, r.source, receipt, after.economy, lost);
  }

  lemma CollectOneAmidKeeps(log10: real -> real, q: Request, b0: Book, held: map<string, Ctx>, s: Collecting, r: Response,
                            lost: set<string>, owners: set<string>)
    requires Reputation.IsLog10(log10) && WellPriced(q) && KnownContexts(q, held) && Pool(q) <= owners
    requires CollectingAmid(q, b0, held, s, lost) && ReceiptsOf(q, held, s)
    ensures var after := CollectOneAmid(log10, q, held, s, r, lost);
      && CollectingAmid(q, b0, held, after, lost) && ReceiptsOf(q, held, after)
      && Supply(after.economy.book, owners) - TotalIssue(after.receipts)
           == Supply(s.economy.book, owners) - TotalIssue(s.receipts)
  {
    if r.source in s.responded {
    } else if r.source !in held {
      assert held.Keys - (s.responded + {r.source}) == held.Keys - s.responded;
      assert held.Keys * (s.responded + {r.source}) == held.Keys * s.responded;
    } else {
      SettleOneAmid(log10, q, b0, held, s, r, lost, owners);
    }
  }

  lemma GapBeforeCollecting(q: Request, b0: Book, held: map<string, Ctx>, s: Collecting, gap: Gap, lost: set<string>,
                            owners: set<string>)
    requires CollectingAmid(q, b0, held, s, lost) && GapAbroad(q, gap.foreign, owners)
    ensures CollectingAmid(q, b0, held, CollectingAfter(s, gap), lost)
    ensures Supply(CollectingAfter(s, gap).economy.book, owners)
         == Supply(s.economy.book, owners) + NetEach(s.economy.book, gap.foreign)
  {
    ForeignGap(q, b0, s.economy.book, HoldIds(q, held.Keys), StillOpen(q, held, s, lost), gap.foreign);
    GapMoves(s.economy.book, gap.foreign, owners);
    assert StillOpen(q, held, CollectingAfter(s, gap), lost) == StillOpen(q, held, s, lost);
  }

  ghost predicate CollectedWell(q: Request, e: Economy, held: map<string, Ctx>, c: CollectedAmid, lost: set<string>,
                                owners: set<string>)
  {
    && CollectingAmid(q, e.book, held, c.s, lost) && ReceiptsOf(q, held, c.s)
    && Supply(c.s.economy.book, owners) == Supply(e.book, owners) + TotalIssue(c.s.receipts) + c.moved
  }

  lemma CollectStepKeeps(log10: real -> real, q: Request, e: Economy, held: map<string, Ctx>, c: CollectedAmid,
                         r: Response, k: nat, trip: Trip, owners: set<string>)
    requires Reputation.IsLog10(log10) && WellPriced(q) && KnownContexts(q, held) && Pool(q) <= owners
    requires CollectedWell(q, e, held, c, trip.lost, owners) && GapAbroad(q, trip.gaps(k).foreign, owners)
    ensures CollectedWell(q, e, held, CollectStep(log10, q, held, c, r, k, trip), trip.lost, owners)
  {
    GapBeforeCollecting(q, e.book, held, c.s, trip.gaps(k), trip.lost, owners);
    CollectOneAmidKeeps(log10, q, e.book, held, CollectingAfter(c.s, trip.gaps(k)), r, trip.lost, owners);
  }

  lemma {:induction false} CollectAmidKeeps(log10: real -> real, q: Request, e: Economy, held: map<string, Ctx>,
                                            c: CollectedAmid, rs: seq<Response>, k: nat, trip: Trip, owners: set<string>)
    requires Reputation.IsLog10(log10) && WellPriced(q) && KnownContexts(q, held) && Pool(q) <= owners
    requires CollectedWell(q, e, held, c, trip.lost, owners) && Abroad(q, trip, owners)
    ensures CollectedWell(q, e, held, CollectAmid(log10, q, held, c, rs, k, trip), trip.lost, owners)
    decreases |rs|
  {
    if rs != [] {
      assert GapAbroad(q, trip.gaps(k).foreign, owners);
      CollectStepKeeps(log10, q, e, held, c, rs[0], k, trip, owners);
      CollectAmidKeeps(log10, q, e, held, CollectStep(log10, q, held, c, rs[0], k, trip), rs[1..], k + 1, trip, owners);
    }
  }

  // ---- the sweep ----

  /** The sweep still has to close the targets in `order` that neither responded nor
      lose their refund. */
  function ToClose(q: Request, order: seq<string>, responded: set<string>, lost: set<string>): set<string>
  {
    HoldIds(q, (set t | t in order) - responded - lost)
  }

  lemma RefundOwn(q: Request, b0: Book, b: Book, placed: set<string>, open: set<string>, id: string, owners: set<string>)
    requires Mine(q, b0, b, placed, open) && OwnId(q, id) && q.source in owners
    ensures var after := Post(b, Entry(q.source, Refund(id))).book;
      Mine(q, b0, after, placed, open - {id}) && Supply(after, owners) == Supply(b, owners)
  {
    var refund := Entry(q.source, Refund(id));
    var after := Post(b, refund).book;
    PostKeepsAudited(b, refund);
    PostMovesSupply(b, refund, owners);
    forall i ensures Opens(after, q.source, i) == Opens(b, q.source, i) { PostOpens(b, refund, q.source, i); }
    CloseSome(q, b0, b, after, placed, open, {id});
  }

  /** In the sweep: the own holds in `open` are held, and the supply has moved by what
      was issued and what others added. */
  ghost predicate SweptWell(q: Request, e: Economy, w: SweptAmid, placed: set<string>, open: set<string>, issued: real,
                            owners: set<string>)
  {
    Mine(q, e.book, w.book, placed, open) && Supply(w.book, owners) == Supply(e.book, owners) + issued + w.moved
  }

  function Closes(q: Request, target: string, responded: set<string>, lost: set<string>): set<string>
  {
    if target in responded || target in lost then {} else {CastHoldId(q.messageId, target)}
  }

  lemma GapBeforeSweeping(q: Request, e: Economy, w: SweptAmid, placed: set<string>, open: set<string>, issued: real,
                          gap: seq<Entry>, owners: set<string>)
    requires SweptWell(q, e, w, placed, open, issued, owners) && GapAbroad(q, gap, owners)
    ensures SweptWell(q, e, SweptAmid(PostEach(w.book, gap), w.moved + NetEach(w.book, gap)), placed, open, issued, owners)
  {
    ForeignGap(q, e.book, w.book, placed, open, gap);
    GapMoves(w.book, gap, owners);
  }

  lemma SweptOneCloses(q: Request, e: Economy, w: SweptAmid, placed: set<string>, open: set<string>, issued: real,
                       target: string, responded: set<string>, lost: set<string>, owners: set<string>)
    requires SweptWell(q, e, w, placed, open, issued, owners) && q.source in owners
    ensures SweptWell(q, e, w.(book := SweptOne(q, w.book, target, responded, lost)), placed,
                      open - Closes(q, target, responded, lost), issued, owners)
  {
    if target in responded || target in lost {
      assert open - {} == open;
    } else {
      OwnIds(q, target);
      RefundOwn(q, e.book, w.book, placed, open, CastHoldId(q.messageId, target), owners);
    }
  }

  lemma SweepStepKeeps(q: Request, e: Economy, w: SweptAmid, placed: set<string>, open: set<string>, issued: real,
                       target: string, responded: set<string>, k: nat, trip: Trip, owners: set<string>)
    requires SweptWell(q, e, w, placed, open, issued, owners) && q.source in owners
    requires GapAbroad(q, trip.gaps(k).foreign, owners)
    ensures SweptWell(q, e, SweepStep(q, w, target, responded, k, trip), placed,
                      open - Closes(q, target, responded, trip.lost), issued, owners)
  {
    var gap := trip.gaps(k).foreign;
    GapBeforeSweeping(q, e, w, placed, open, issued, gap, owners);
    SweptOneCloses(q, e, SweptAmid(PostEach(w.book, gap), w.moved + NetEach(w.book, gap)), placed, open, issued, target,
                   responded, trip.lost, owners);
  }

  lemma ToCloseFirst(q: Request, order: seq<string>, responded: set<string>, lost: set<string>)
    requires order != []
    ensures ToClose(q, order, responded, lost)
         == Closes(q, order[0], responded, lost) + ToClose(q, order[1..], responded, lost)
  {
    var own := {order[0]} - responded - lost;
    assert (set t | t in order) == {order[0]} + (set t | t in order[1..]);
    assert (set t | t in order) - responded - lost == own + ((set t | t in order[1..]) - responded - lost);
    assert HoldIds(q, own) == Closes(q, order[0], responded, lost);
  }

  lemma {:induction false} SweepAmidCloses(q: Request, e: Economy, w: SweptAmid, placed: set<string>, open: set<string>,
                                           issued: real, order: seq<string>, responded: set<string>, k: nat, trip: Trip,
                                           owners: set<string>)
    requires SweptWell(q, e, w, placed, open, issued, owners) && Abroad(q, trip, owners) && q.source in owners
    ensures SweptWell(q, e, SweepAmid(q, w, order, responded, k, trip), placed,
                      open - ToClose(q, order, responded, trip.lost), issued, owners)
    decreases |order|
  {
    if order == [] {
      assert open - ToClose(q, [], responded, trip.lost) == open;
    } else {
      assert GapAbroad(q, trip.gaps(k).foreign, owners);
      var closed := Closes(q, order[0], responded, trip.lost);
      SweepStepKeeps(q, e, w, placed, open, issued, order[0], responded, k, trip, owners);
      SweepAmidCloses(q, e, SweepStep(q, w, order[0], responded, k, trip), placed, open - closed, issued, order[1..],
                      responded, k + 1, trip, owners);
      ToCloseFirst(q, order, responded, trip.lost);
      assert (open - closed) - ToClose(q, order[1..], responded, trip.lost)
        == open - ToClose(q, order, responded, trip.lost);
    }
  }

  // ---- the theorem ----

  /** A fresh message id: none of the broadcast's own ids is held. */
  ghost predicate FreshMessage(q: Request, b: Book)
  {
    forall id :: OwnId(q, id) ==> !IsOpen(b, q.source, id)
  }

  /** Of the own holds exactly `left` are open; every one in `placed` was opened once,
      and closed once unless it is left. */
  ghost predicate ClosedBut(q: Request, b0: Book, b: Book, placed: set<string>, left: set<string>)
  {
    forall id :: OwnId(q, id) ==>
      && (IsOpen(b, q.source, id) <==> id in left)
      && Opens(b, q.source, id) == Opens(b0, q.source, id) + (if id in placed then 1 else 0)
      && Closings(b, q.source, id) == Closings(b0, q.source, id) + (if id in placed && id !in left then 1 else 0)
  }

  lemma MineIsClosedBut(q: Request, b0: Book, b: Book, placed: set<string>, left: set<string>)
    requires Mine(q, b0, b, placed, left) && Audited(b0) && FreshMessage(q, b0) && left <= placed
    ensures ClosedBut(q, b0, b, placed, left)
  {
    forall id | OwnId(q, id)
      ensures Closings(b, q.source, id) == Closings(b0, q.source, id) + (if id in placed && id !in left then 1 else 0)
    {
      OpensMatchClosings(b0, q.source, id);
      OpensMatchClosings(b, q.source, id);
    }
  }

  lemma PlacingStarts(q: Request, b: Book)
    requires Audited(b) && FreshMessage(q, b)
    ensures PlacingAmid(q, b, Placing(b, map[], [], [], map[], false))
  {
    assert HoldIds(q, {}) == {};
  }

  lemma HoldIdsDifference(q: Request, a: set<string>, b: set<string>)
    ensures HoldIds(q, a - b) == HoldIds(q, a) - HoldIds(q, b) && HoldIds(q, a * b) == HoldIds(q, a) * HoldIds(q, b)
  {
    forall t ensures CastHoldId(q.messageId, t) in HoldIds(q, b) <==> t in b { HoldIdsMember(q, b, t); }
  }

  /** The sweep closes everything open but what the trip loses. */
  lemma SweepLeaves(q: Request, held: set<string>, responded: set<string>, lost: set<string>, stuck: set<string>)
    requires stuck <= HoldIds(q, held * responded)
    ensures (HoldIds(q, held - responded) + stuck) - HoldIds(q, held - responded - lost)
         == HoldIds(q, (held - responded) * lost) + stuck
  {
    HoldIdsDifference(q, held - responded, lost);
    HoldIdsDifference(q, held, responded);
  }

  ghost predicate Exact(q: Request, e: Economy, run: RunAmid, trip: Trip, owners: set<string>)
  {
    && ClosedBut(q, e.book, run.book, HoldIds(q, run.held.Keys), LeftOpen(q, run, trip.lost))
    && Supply(run.book, owners) == Supply(e.book, owners) + TotalIssue(run.receipts) + run.moved
    && (run.cut ==> trip.stop.Some?)
  }

  lemma AfterPlacing(q: Request, e: Economy, w: PlacedAmid, trip: Trip, owners: set<string>)
    requires Audited(e.book) && FreshMessage(q, e.book) && PlacedWell(q, e, w, trip, owners)
    requires w.raised || w.p.deliverable == []
    ensures Exact(q, e, RunAmid(w.p.book, w.p.held, {}, [], w.moved, w.raised), trip, owners)
  {
    var held := w.p.held;
    if !w.raised {
      assert forall t :: t in held ==> t in w.p.deliverable;
      assert held == map[];
      assert HoldIds(q, {}) == {};
    }
    MineIsClosedBut(q, e.book, w.p.book, HoldIds(q, held.Keys), HoldIds(q, held.Keys));
  }

  lemma OrderIsHeld(q: Request, p: Placing)
    requires Bookkeeping(q, p)
    ensures (set t | t in p.order) == p.held.Keys
  {
  }

  lemma AfterSweep(q: Request, e: Economy, p: Placing, s: Collecting, w: SweptAmid, trip: Trip, owners: set<string>)
    requires Audited(e.book) && FreshMessage(q, e.book) && Bookkeeping(q, p) && ReceiptsOf(q, p.held, s)
    requires SweptWell(q, e, w, HoldIds(q, p.held.Keys),
                       StillOpen(q, p.held, s, trip.lost) - ToClose(q, p.order, s.responded, trip.lost),
                       TotalIssue(s.receipts), owners)
    ensures Exact(q, e, RunAmid(w.book, p.held, s.responded, s.receipts, w.moved, false), trip, owners)
  {
    var stuck := HoldIds(q, p.held.Keys * trip.lost) * Unreleased(s.receipts);
    OrderIsHeld(q, p);
    assert stuck <= HoldIds(q, p.held.Keys * s.responded);
    SweepLeaves(q, p.held.Keys, s.responded, trip.lost, stuck);
    var left := HoldIds(q, (p.held.Keys - s.responded) * trip.lost) + stuck;
    HoldIdsDifference(q, p.held.Keys - s.responded, trip.lost);
    HoldIdsDifference(q, p.held.Keys, s.responded);
    HoldIdsDifference(q, p.held.Keys, trip.lost);
    MineIsClosedBut(q, e.book, w.book, HoldIds(q, p.held.Keys), left);
  }

  /** From a finished hold loop to the end, with the responses collected so far. */
  lemma FinishedIsExact(q: Request, e: Economy, p: Placing, c: CollectedAmid, k: nat, trip: Trip, owners: set<string>,
                        run: RunAmid)
    requires Audited(e.book) && FreshMessage(q, e.book) && Abroad(q, trip, owners) && q.source in owners
    requires Bookkeeping(q, p) && CollectedWell(q, e, p.held, c, trip.lost, owners)
    requires run == Finished(q, p, c, k, trip)
    ensures Exact(q, e, run, trip, owners)
  {
    SweepAmidCloses(q, e, SweptAmid(c.s.economy.book, c.moved), HoldIds(q, p.held.Keys), StillOpen(q, p.held, c.s, trip.lost),
                    TotalIssue(c.s.receipts), p.order, c.s.responded, k, trip, owners);
    AfterSweep(q, e, p, c.s, SweepAmid(q, SweptAmid(c.s.economy.book, c.moved), p.order, c.s.responded, k, trip), trip, owners);
  }

  lemma CollectingStarts(q: Request, e: Economy, w: PlacedAmid, trip: Trip, owners: set<string>)
    requires PlacedWell(q, e, w, trip, owners)
    ensures CollectedWell(q, e, w.p.held, Uncollected(e, w), trip.lost, owners)
  {
    assert w.p.held.Keys - {} == w.p.held.Keys;
    assert StillOpen(q, w.p.held, Uncollected(e, w).s, trip.lost) == HoldIds(q, w.p.held.Keys);
  }

  lemma BusRaisedIsExact(q: Request, e: Economy, w: PlacedAmid, k: nat, trip: Trip, owners: set<string>, run: RunAmid)
    requires Audited(e.book) && q.source in owners && FreshMessage(q, e.book) && Abroad(q, trip, owners)
    requires PlacedWell(q, e, w, trip, owners) && run == Finished(q, w.p, Uncollected(e, w), k, trip)
    ensures Exact(q, e, run, trip, owners)
  {
    CollectingStarts(q, e, w, trip, owners);
    FinishedIsExact(q, e, w.p, Uncollected(e, w), k, trip, owners, run);
  }

  lemma RepliesCollected(log10: real -> real, q: Request, e: Economy, w: PlacedAmid, rs: seq<Response>, k: nat,
                         trip: Trip, owners: set<string>, c: CollectedAmid)
    requires Reputation.IsLog10(log10) && WellPriced(q) && Pool(q) <= owners && Abroad(q, trip, owners)
    requires PlacedWell(q, e, w, trip, owners)
    requires c == CollectAmid(log10, q, w.p.held, Uncollected(e, w), rs, k, trip)
    ensures Bookkeeping(q, w.p) && CollectedWell(q, e, w.p.held, c, trip.lost, owners)
  {
    CollectingStarts(q, e, w, trip, owners);
    CollectAmidKeeps(log10, q, e, w.p.held, Uncollected(e, w), rs, k, trip, owners);
  }

  lemma RepliesAreExact(log10: real -> real, q: Request, e: Economy, w: PlacedAmid, rs: seq<Response>, k: nat,
                        trip: Trip, owners: set<string>, c: CollectedAmid, last: nat, run: RunAmid)
    requires Reputation.IsLog10(log10) && WellPriced(q) && Audited(e.book) && Pool(q) <= owners
    requires FreshMessage(q, e.book) && Abroad(q, trip, owners) && PlacedWell(q, e, w, trip, owners)
    requires c == CollectAmid(log10, q, w.p.held, Uncollected(e, w), rs, k, trip) && run == Finished(q, w.p, c, last, trip)
    ensures Exact(q, e, run, trip, owners)
  {
    RepliesCollected(log10, q, e, w, rs, k, trip, owners, c);
    FinishedIsExact(q, e, w.p, c, last, trip, owners, run);
  }

  lemma RepliesDelivered(log10: real -> real, q: Request, e: Economy, w: PlacedAmid, rs: seq<Response>, k: nat, trip: Trip)
    ensures Delivered(log10, q, e, w, Replies(rs), k, trip)
         == Finished(q, w.p, CollectAmid(log10, q, w.p.held, Uncollected(e, w), rs, k, trip), k + |rs|, trip)
  {
  }

  lemma DeliveredIsExact(log10: real -> real, q: Request, e: Economy, w: PlacedAmid, delivery: Delivery, k: nat,
                         trip: Trip, owners: set<string>, run: RunAmid)
    requires Reputation.IsLog10(log10) && WellPriced(q) && Audited(e.book) && Pool(q) <= owners
    requires FreshMessage(q, e.book) && Abroad(q, trip, owners) && PlacedWell(q, e, w, trip, owners)
    requires run == Delivered(log10, q, e, w, delivery, k, trip)
    ensures Exact(q, e, run, trip, owners)
  {
    match delivery
    case BusRaised => BusRaisedIsExact(q, e, w, k, trip, owners, run);
    case Replies(rs) =>
      RepliesDelivered(log10, q, e, w, rs, k, trip);
      var c := CollectAmid(log10, q, w.p.held, Uncollected(e, w), rs, k, trip);
      RepliesAreExact(log10, q, e, w, rs, k, trip, owners, c, k + |rs|, run);
  }

  /** The exact outcome of a broadcast whose steps are interleaved with arbitrary
      operations of others and whose infrastructure may fail: which of its holds stay
      open, that every other one it placed was closed exactly once, and that the
      supply moved by what its settlements issued and what the others added. */
  lemma CastGetAmidIsExact(log10: real -> real, q: Request, targets: seq<string>, e: Economy, delivery: Delivery,
                           trip: Trip, owners: set<string>)
    requires Reputation.IsLog10(log10) && WellPriced(q) && Audited(e.book) && Pool(q) <= owners
    requires FreshMessage(q, e.book) && Abroad(q, trip, owners)
    ensures Exact(q, e, CastGetAmid(log10, q, targets, e, delivery, trip), trip, owners)
  {
    PlacingStarts(q, e.book);
    PlaceAmidKeeps(q, e, Unplaced(e), targets, 0, trip, owners);
    var w := PlaceAmid(q, Unplaced(e), targets, 0, trip);
    if w.raised || w.p.deliverable == [] {
      AfterPlacing(q, e, w, trip, owners);
    } else {
      DeliveredIsExact(log10, q, e, w, delivery, |targets|, trip, owners, CastGetAmid(log10, q, targets, e, delivery, trip));
    }
  }

  /** Without infrastructure failures nothing is left, whatever the others do: every
      hold the broadcast placed was opened once and closed once. */
  lemma CastGetAmidIsSafe(log10: real -> real, q: Request, targets: seq<string>, e: Economy, delivery: Delivery,
                          trip: Trip, owners: set<string>)
    requires Reputation.IsLog10(log10) && WellPriced(q) && Audited(e.book) && Pool(q) <= owners
    requires FreshMessage(q, e.book) && Abroad(q, trip, owners) && trip.stop == None && trip.lost == {}
    ensures var run := CastGetAmid(log10, q, targets, e, delivery, trip);
      && ClosedBut(q, e.book, run.book, HoldIds(q, run.held.Keys), {})
      && Supply(run.book, owners) == Supply(e.book, owners) + TotalIssue(run.receipts) + run.moved
  {
    CastGetAmidIsExact(log10, q, targets, e, delivery, trip, owners);
    var run := CastGetAmid(log10, q, targets, e, delivery, trip);
    assert HoldIds(q, (run.held.Keys - run.responded) * {}) == {} && HoldIds(q, run.held.Keys * {}) == {};
    assert LeftOpen(q, run, trip.lost) == {};
  }

  // ---- nobody else about ----

  const QUIET: Gap := Gap([], map[])

  /** Nobody else does anything, and nothing fails. */
  ghost predicate Quiet(trip: Trip)
  {
    (forall k: nat :: trip.gaps(k) == QUIET) && trip.stop == None && trip.lost == {}
  }

  lemma {:induction false} QuietPlacing(q: Request, w: PlacedAmid, targets: seq<string>, k: nat, trip: Trip)
    requires Quiet(trip) && w.raised == w.p.aborted
    ensures var p := Place(q, w.p, targets); PlaceAmid(q, w, targets, k, trip) == PlacedAmid(p, w.moved, p.aborted)
    decreases |targets|
  {
    if targets != [] && !w.raised {
      assert trip.gaps(k) == QUIET;
      assert PlaceStep(q, w, targets[0], k, trip).p == PlaceOne(q, w.p, targets[0]);
      QuietPlacing(q, PlaceStep(q, w, targets[0], k, trip), targets[1..], k + 1, trip);
    }
  }

  lemma QuietStep(log10: real -> real, q: Request, held: map<string, Ctx>, c: CollectedAmid, r: Response, k: nat,
                  trip: Trip)
    requires Quiet(trip)
    ensures CollectStep(log10, q, held, c, r, k, trip) == CollectedAmid(CollectOne(log10, q, held, c.s, r), c.moved)
  {
    assert trip.gaps(k) == QUIET;
    assert c.s.economy.reputations + map[] == c.s.economy.reputations;
    assert CollectingAfter(c.s, QUIET) == c.s;
  }

  lemma {:induction false} QuietCollecting(log10: real -> real, q: Request, held: map<string, Ctx>, c: CollectedAmid,
                                           rs: seq<Response>, k: nat, trip: Trip)
    requires Quiet(trip)
    ensures CollectAmid(log10, q, held, c, rs, k, trip) == CollectedAmid(Collect(log10, q, held, c.s, rs), c.moved)
    decreases |rs|
  {
    if rs != [] {
      QuietStep(log10, q, held, c, rs[0], k, trip);
      QuietCollecting(log10, q, held, CollectStep(log10, q, held, c, rs[0], k, trip), rs[1..], k + 1, trip);
    }
  }

  lemma {:induction false} QuietSweep(q: Request, w: SweptAmid, order: seq<string>, responded: set<string>, k: nat,
                                      trip: Trip)
    requires Quiet(trip)
    ensures SweepAmid(q, w, order, responded, k, trip) == SweptAmid(Sweep(q, w.book, order, responded), w.moved)
    decreases |order|
  {
    if order != [] {
      assert trip.gaps(k) == QUIET;
      QuietSweep(q, SweepStep(q, w, order[0], responded, k, trip), order[1..], responded, k + 1, trip);
    }
  }

  lemma QuietDelivered(log10: real -> real, q: Request, e: Economy, w: PlacedAmid, rs: seq<Response>, k: nat, trip: Trip)
    requires Quiet(trip)
    ensures var s := Collect(log10, q, w.p.held, Uncollected(e, w).s, rs);
      Delivered(log10, q, e, w, Replies(rs), k, trip)
        == RunAmid(Sweep(q, s.economy.book, w.p.order, s.responded), w.p.held, s.responded, s.receipts, w.moved, false)
  {
    RepliesDelivered(log10, q, e, w, rs, k, trip);
    QuietCollecting(log10, q, w.p.held, Uncollected(e, w), rs, k, trip);
    var s := Collect(log10, q, w.p.held, Uncollected(e, w).s, rs);
    QuietSweep(q, SweptAmid(s.economy.book, w.moved), w.p.order, s.responded, k + |rs|, trip);
  }

  lemma QuietBusRaised(log10: real -> real, q: Request, e: Economy, w: PlacedAmid, k: nat, trip: Trip)
    requires Quiet(trip)
    ensures Delivered(log10, q, e, w, BusRaised, k, trip)
         == RunAmid(Sweep(q, w.p.book, w.p.order, {}), w.p.held, {}, [], w.moved, false)
  {
    QuietSweep(q, SweptAmid(w.p.book, w.moved), w.p.order, {}, k, trip);
  }

  /** What of a broadcast an interrupted one can be compared with. */
  function Undisturbed(run: CastRun, responded: set<string>): RunAmid
  {
    RunAmid(run.economy.book, run.placing.held, responded, run.receipts, 0.0, run.placing.aborted)
  }

  /** With nobody else about and nothing failing this is the broadcast itself. */
  lemma QuietIsCastGet(log10: real -> real, q: Request, targets: seq<string>, e: Economy, delivery: Delivery, trip: Trip)
    requires Quiet(trip)
    ensures var amid := CastGetAmid(log10, q, targets, e, delivery, trip);
      amid == Undisturbed(CastGet(log10, q, targets, e, delivery), amid.responded)
  {
    QuietPlacing(q, Unplaced(e), targets, 0, trip);
    var w := PlaceAmid(q, Unplaced(e), targets, 0, trip);
    if !w.raised && w.p.deliverable != [] {
      match delivery
      case BusRaised => QuietBusRaised(log10, q, e, w, |targets|, trip);
      case Replies(rs) => QuietDelivered(log10, q, e, w, rs, |targets|, trip);
    }
  }
}
