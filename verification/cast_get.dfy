/** CAST-GET: one hold per target, a loop over the responses, a refund sweep. */
module CastGets {
  import opened Common
  import opened Wallets
  import opened Ledger
  import opened ComputeProvider
  import opened Broker
  import opened Dispatch
  import Reputation

  datatype Response = Response(source: string, answer: Answer)

  /** What the bus does with a broadcast. Duplicate and unknown responders are
      possible: whoever knows the reply channel may answer. */
  datatype Delivery = BusRaised | Replies(responses: seq<Response>)

  // ---- placing one hold per target ----

  datatype Placing = Placing(
    book: Book,
    held: map<string, Ctx>,
    order: seq<string>,
    deliverable: seq<string>,
    leafCache: map<string, Option<MenuLeaf>>,
    aborted: bool
  )

  /** Leaf decisions are made once per server. */
  function CacheLeaf(q: Request, cache: map<string, Option<MenuLeaf>>, s: Server): map<string, Option<MenuLeaf>>
  {
    if s.serverId in cache then cache else cache[s.serverId := BoundLeaf(q, s)]
  }

  function AddTarget(p: Placing, target: string, ctx: Ctx): Placing
  {
    p.(held := p.held[target := ctx],
       order := if target in p.held then p.order else p.order + [target],
       deliverable := p.deliverable + [target])
  }

  function PlaceOne(q: Request, p: Placing, target: string): Placing
  {
    match ServerFor(q.servers, OrgOf(target))
    case None => p.(deliverable := p.deliverable + [target])
    case Some(server) =>
      var p1 := p.(leafCache := CacheLeaf(q, p.leafCache, server));
      var posting := Post(p.book, Entry(q.source, Hold(CastHoldId(q.messageId, target), HoldAmount(q, server))));
      match posting.error
      case None => AddTarget(p1.(book := posting.book), target, Ctx(server, p1.leafCache[server.serverId]))
      case Some(InsufficientFunds) => p1
      case Some(_) => p1.(aborted := true)
  }

  function Place(q: Request, p: Placing, targets: seq<string>): Placing
    decreases |targets|
  {
    if targets == [] || p.aborted then p else Place(q, PlaceOne(q, p, targets[0]), targets[1..])
  }

  function Placed(q: Request, b: Book, targets: seq<string>): Placing
  {
    Place(q, Placing(b, map[], [], [], map[], false), targets)
  }

  // ---- settling the responses ----

  datatype Collecting = Collecting(economy: Economy, responded: set<string>, receipts: seq<Receipt>)

  function CollectOne(log10: real -> real, q: Request, held: map<string, Ctx>, s: Collecting, r: Response): Collecting
  {
    if r.source in s.responded then s
    else if r.source !in held then s.(responded := s.responded + {r.source})
    else
      var c := ChargeFor(q, r.source, held[r.source]);
      Collecting(SettleOrRefund(log10, s.economy, c, r.answer), s.responded + {r.source},
                 s.receipts + [ReceiptFor(log10, s.economy, c, r.answer)])
  }

  function Collect(log10: real -> real, q: Request, held: map<string, Ctx>, s: Collecting, rs: seq<Response>): Collecting
    decreases |rs|
  {
    if rs == [] then s else Collect(log10, q, held, CollectOne(log10, q, held, s, rs[0]), rs[1..])
  }

  /** Refund every hold in `order` whose target has not responded; a refund that
      raises is ignored. */
  function Sweep(q: Request, b: Book, order: seq<string>, responded: set<string>): Book
    decreases |order|
  {
    if order == [] then b else
      var next := if order[0] in responded then b
                  else Post(b, Entry(q.source, Refund(CastHoldId(q.messageId, order[0])))).book;
      Sweep(q, next, order[1..], responded)
  }

  datatype CastResult = Raised | Returned(responses: seq<Response>)

  datatype CastRun = CastRun(economy: Economy, placing: Placing, receipts: seq<Receipt>, result: CastResult)

  /** The whole broadcast. */
  function CastGet(log10: real -> real, q: Request, targets: seq<string>, e: Economy, delivery: Delivery): CastRun
  {
    var p := Placed(q, e.book, targets);
    var e1 := e.(book := p.book);
    if p.aborted then CastRun(e1, p, [], Raised)
    else if p.deliverable == [] then CastRun(e1, p, [], Returned([]))
    else match delivery
      case BusRaised => CastRun(e1.(book := Sweep(q, p.book, p.order, {})), p, [], Raised)
      case Replies(rs) =>
        var s := Collect(log10, q, p.held, Collecting(e1, {}, []), rs);
        CastRun(s.economy.(book := Sweep(q, s.economy.book, p.order, s.responded)), p, s.receipts, Returned(rs))
  }

  // ---- what stays true on the way ----

  function HoldIds(q: Request, targets: set<string>): set<string>
  {
    set t | t in targets :: CastHoldId(q.messageId, t)
  }

  /** Compared with book `b0`, book `b` has exactly the holds of the targets in
      `open` in addition, and has opened exactly those of the targets in `placed`. */
  ghost predicate Outstanding(q: Request, b0: Book, b: Book, placed: set<string>, open: set<string>)
  {
    var mine, before := WalletOf(b, q.source).holds, WalletOf(b0, q.source).holds;
    && Audited(b)
    && (forall o :: o != q.source ==> WalletOf(b, o).holds == WalletOf(b0, o).holds)
    && HoldIds(q, open) <= mine.Keys
    && HoldIds(q, open) !! before.Keys
    && mine - HoldIds(q, open) == before
    && (forall o, id :: Opens(b, o, id)
          == Opens(b0, o, id) + (if o == q.source && id in HoldIds(q, placed) then 1 else 0))
  }

  ghost predicate KnownContexts(q: Request, held: map<string, Ctx>)
  {
    forall t :: t in held ==>
      && ServerFor(q.servers, OrgOf(t)) == Some(held[t].server)
      && held[t].server.baseRate >= 0.0
      && (held[t].leaf.Some? ==> held[t].leaf.value in q.leaves)
  }

  /** The dictionary and the two lists agree, and nothing raised. */
  ghost predicate Bookkeeping(q: Request, p: Placing)
  {
    && KnownContexts(q, p.held)
    && (forall t :: t in p.order <==> t in p.held)
    && (forall i, j :: 0 <= i < j < |p.order| ==> p.order[i] != p.order[j])
    && (forall t :: t in p.held ==> t in p.deliverable)
    && (forall id :: id in p.leafCache && p.leafCache[id].Some? ==> p.leafCache[id].value in q.leaves)
    && !p.aborted
  }

  /** Every target in the dictionary holds the amount its server is estimated at. */
  ghost predicate Amounts(q: Request, holds: map<string, real>, held: map<string, Ctx>)
  {
    forall t :: t in held ==>
      CastHoldId(q.messageId, t) in holds
      && holds[CastHoldId(q.messageId, t)] == HoldAmount(q, held[t].server)
  }

  ghost predicate PlacingInv(q: Request, b0: Book, p: Placing)
  {
    && Outstanding(q, b0, p.book, p.held.Keys, p.held.Keys)
    && Amounts(q, WalletOf(p.book, q.source).holds, p.held)
    && Bookkeeping(q, p)
  }

  lemma {:induction false} ServerForListed(servers: seq<Server>, org: string)
    ensures var s := ServerFor(servers, org); s.Some? ==> s.value in servers && s.value.org == org
  {
    if servers != [] { ServerForListed(servers[1..], org); }
  }

  /** A new hold on a fresh id keeps the books straight. */
  lemma HoldExtends(q: Request, b0: Book, b: Book, placed: set<string>, target: string, amount: real)
    requires Outstanding(q, b0, b, placed, placed)
    requires target !in placed && !IsOpen(b0, q.source, CastHoldId(q.messageId, target)) && amount >= 0.0
    ensures var id := CastHoldId(q.messageId, target);
      var p := Post(b, Entry(q.source, Hold(id, amount)));
      && (p.error == None || p.error == Some(InsufficientFunds))
      && (p.error == None ==>
            && Outstanding(q, b0, p.book, placed + {target}, placed + {target})
            && WalletOf(p.book, q.source).holds == WalletOf(b, q.source).holds[id := amount])
  {
    var id := CastHoldId(q.messageId, target);
    var e := Entry(q.source, Hold(id, amount));
    var p := Post(b, e);
    if id in HoldIds(q, placed) {
      var t :| t in placed && CastHoldId(q.messageId, t) == id;
      CastHoldIdInjective(q.messageId, t, target);
    }
    var mine := WalletOf(b, q.source).holds;
    assert id !in (mine - HoldIds(q, placed)).Keys;
    assert id !in mine;
    PostKeepsAudited(b, e);
    assert HoldIds(q, placed + {target}) == HoldIds(q, placed) + {id};
    assert mine[id := amount] - (HoldIds(q, placed) + {id}) == mine - HoldIds(q, placed);
    forall o, i ensures Opens(p.book, o, i) == Opens(b, o, i)
        + (if p.error == None && o == q.source && i == id then 1 else 0) {
      PostOpens(b, e, o, i);
    }
  }

  /** Repeating a hold that is already placed changes nothing. */
  lemma HoldRepeats(q: Request, b0: Book, b: Book, placed: set<string>, target: string, amount: real)
    requires Outstanding(q, b0, b, placed, placed) && target in placed && amount >= 0.0
    requires WalletOf(b, q.source).holds[CastHoldId(q.messageId, target)] == amount
    ensures var p := Post(b, Entry(q.source, Hold(CastHoldId(q.messageId, target), amount)));
      && p.error == None && Outstanding(q, b0, p.book, placed, placed)
      && WalletOf(p.book, q.source) == WalletOf(b, q.source)
  {
    var e := Entry(q.source, Hold(CastHoldId(q.messageId, target), amount));
    assert CastHoldId(q.messageId, target) in HoldIds(q, placed);
    PostKeepsAudited(b, e);
    assert Post(b, e).book.history == b.history;
  }

  lemma AmountsExtend(q: Request, holds: map<string, real>, held: map<string, Ctx>, target: string, ctx: Ctx)
    requires Amounts(q, holds, held)
    ensures Amounts(q, holds[CastHoldId(q.messageId, target) := HoldAmount(q, ctx.server)], held[target := ctx])
  {
    forall t | t in held && t != target
      ensures CastHoldId(q.messageId, t) != CastHoldId(q.messageId, target)
    {
      if CastHoldId(q.messageId, t) == CastHoldId(q.messageId, target) {
        CastHoldIdInjective(q.messageId, t, target);
      }
    }
  }

  lemma CacheLeafKeeps(q: Request, p: Placing, s: Server)
    requires Bookkeeping(q, p)
    ensures Bookkeeping(q, p.(leafCache := CacheLeaf(q, p.leafCache, s)))
  {
    BoundLeafListed(q, s);
  }

  lemma AddTargetKeeps(q: Request, p: Placing, target: string, ctx: Ctx)
    requires Bookkeeping(q, p)
    requires ServerFor(q.servers, OrgOf(target)) == Some(ctx.server) && ctx.server.baseRate >= 0.0
    requires ctx.leaf.Some? ==> ctx.leaf.value in q.leaves
    ensures Bookkeeping(q, AddTarget(p, target, ctx))
  {
  }

  /** The hold attempt for a listed target is placed, repeated or short of funds. */
  lemma AttemptKeeps(q: Request, b0: Book, p: Placing, target: string, server: Server)
    requires PlacingInv(q, b0, p) && server.baseRate >= 0.0
    requires ServerFor(q.servers, OrgOf(target)) == Some(server)
    requires !IsOpen(b0, q.source, CastHoldId(q.messageId, target))
    ensures var id := CastHoldId(q.messageId, target);
      var posting := Post(p.book, Entry(q.source, Hold(id, HoldAmount(q, server))));
      && (posting.error == None || posting.error == Some(InsufficientFunds))
      && (posting.error == None ==>
            && Outstanding(q, b0, posting.book, p.held.Keys + {target}, p.held.Keys + {target})
            && WalletOf(posting.book, q.source).holds
                 == WalletOf(p.book, q.source).holds[id := HoldAmount(q, server)])
  {
    HoldAmountNonNegative(q, server);
    if target in p.held {
      HoldRepeats(q, b0, p.book, p.held.Keys, target, HoldAmount(q, server));
      assert p.held.Keys + {target} == p.held.Keys;
    } else {
      HoldExtends(q, b0, p.book, p.held.Keys, target, HoldAmount(q, server));
    }
  }

  lemma GrantedBooks(q: Request, p: Placing, target: string, server: Server, after: Book)
    requires Bookkeeping(q, p) && Amounts(q, WalletOf(p.book, q.source).holds, p.held) && server.baseRate >= 0.0
    requires ServerFor(q.servers, OrgOf(target)) == Some(server)
    requires WalletOf(after, q.source).holds
      == WalletOf(p.book, q.source).holds[CastHoldId(q.messageId, target) := HoldAmount(q, server)]
    ensures var next := Granted(q, p, target, server, after);
      && next.book == after && next.held.Keys == p.held.Keys + {target}
      && Bookkeeping(q, next) && Amounts(q, WalletOf(after, q.source).holds, next.held)
  {
    CacheLeafKeeps(q, p, server);
    var p1 := p.(leafCache := CacheLeaf(q, p.leafCache, server), book := after);
    var ctx := Ctx(server, p1.leafCache[server.serverId]);
    AddTargetKeeps(q, p1, target, ctx);
    AmountsExtend(q, WalletOf(p.book, q.source).holds, p.held, target, ctx);
  }

  lemma GrantedKeeps(q: Request, b0: Book, p: Placing, target: string, server: Server, after: Book,
                     placed: set<string>)
    requires PlacingInv(q, b0, p) && server.baseRate >= 0.0
    requires ServerFor(q.servers, OrgOf(target)) == Some(server)
    requires placed == p.held.Keys + {target} && Outstanding(q, b0, after, placed, placed)
    requires WalletOf(after, q.source).holds
      == WalletOf(p.book, q.source).holds[CastHoldId(q.messageId, target) := HoldAmount(q, server)]
    ensures PlacingInv(q, b0, Granted(q, p, target, server, after))
  {
    GrantedBooks(q, p, target, server, after);
  }

  lemma PlaceOneKeeps(q: Request, b0: Book, p: Placing, target: string)
    requires WellPriced(q) && PlacingInv(q, b0, p)
    requires !IsOpen(b0, q.source, CastHoldId(q.messageId, target))
    ensures PlacingInv(q, b0, PlaceOne(q, p, target))
  {
    var found := ServerFor(q.servers, OrgOf(target));
    if found.Some? {
      var server := found.value;
      ServerForListed(q.servers, OrgOf(target));
      AttemptKeeps(q, b0, p, target, server);
      CacheLeafKeeps(q, p, server);
      var posting := Post(p.book, Entry(q.source, Hold(CastHoldId(q.messageId, target), HoldAmount(q, server))));
      if posting.error == None { GrantedKeeps(q, b0, p, target, server, posting.book, p.held.Keys + {target}); }
    }
  }

  function Granted(q: Request, p: Placing, target: string, server: Server, after: Book): Placing
  {
    var p1 := p.(leafCache := CacheLeaf(q, p.leafCache, server), book := after);
    AddTarget(p1, target, Ctx(server, p1.leafCache[server.serverId]))
  }

  predicate FreshIds(q: Request, b: Book, targets: seq<string>)
  {
    forall t :: t in targets ==> !IsOpen(b, q.source, CastHoldId(q.messageId, t))
  }

  lemma {:induction false} PlaceKeeps(q: Request, b0: Book, p: Placing, targets: seq<string>)
    requires WellPriced(q) && PlacingInv(q, b0, p) && FreshIds(q, b0, targets)
    ensures PlacingInv(q, b0, Place(q, p, targets))
    decreases |targets|
  {
    if targets != [] {
      PlaceOneKeeps(q, b0, p, targets[0]);
      PlaceKeeps(q, b0, PlaceOne(q, p, targets[0]), targets[1..]);
    }
  }

  /** Holds leave every balance alone. */
  lemma {:induction false} PlaceKeepsSupply(q: Request, p: Placing, targets: seq<string>, owners: set<string>)
    requires q.source in owners
    ensures Supply(Place(q, p, targets).book, owners) == Supply(p.book, owners)
    decreases |targets|
  {
    if targets != [] && !p.aborted {
      var found := ServerFor(q.servers, OrgOf(targets[0]));
      if found.Some? {
        var hold := Hold(CastHoldId(q.messageId, targets[0]), HoldAmount(q, found.value));
        PostMovesSupply(p.book, Entry(q.source, hold), owners);
      }
      PlaceKeepsSupply(q, PlaceOne(q, p, targets[0]), targets[1..], owners);
    }
  }

  /** Closing one target's hold, however it happened. */
  lemma CloseShrinks(q: Request, b0: Book, b: Book, after: Book, placed: set<string>, open: set<string>, target: string)
    requires Outstanding(q, b0, b, placed, open) && target in open && Audited(after)
    requires WalletOf(after, q.source).holds == WalletOf(b, q.source).holds - {CastHoldId(q.messageId, target)}
    requires forall o :: o != q.source ==> WalletOf(after, o).holds == WalletOf(b, o).holds
    requires forall o, id :: Opens(after, o, id) == Opens(b, o, id)
    ensures Outstanding(q, b0, after, placed, open - {target})
  {
    var id := CastHoldId(q.messageId, target);
    var rest := open - {target};
    assert id in HoldIds(q, open);
    forall t | t in rest ensures CastHoldId(q.messageId, t) != id {
      if CastHoldId(q.messageId, t) == id { CastHoldIdInjective(q.messageId, t, target); }
    }
    assert HoldIds(q, rest) == HoldIds(q, open) - {id};
    var mine := WalletOf(b, q.source).holds;
    assert (mine - {id}) - HoldIds(q, rest) == mine - HoldIds(q, open);
  }

  // ---- the responses ----

  ghost predicate CollectingInv(q: Request, e0: Economy, held: map<string, Ctx>, s: Collecting, owners: set<string>)
  {
    && Outstanding(q, e0.book, s.economy.book, held.Keys, held.Keys - s.responded)
    && Supply(s.economy.book, owners) == Supply(e0.book, owners) + TotalIssue(s.receipts)
    && SoundReceipts(s.receipts)
  }

  lemma {:induction false} TotalIssueAppend(receipts: seq<Receipt>, r: Receipt)
    ensures TotalIssue(receipts + [r]) == TotalIssue(receipts) + Issue(r)
  {
    if receipts == [] {
      assert [r][1..] == [];
    } else {
      assert (receipts + [r])[1..] == receipts[1..] + [r];
      TotalIssueAppend(receipts[1..], r);
    }
  }

  lemma CollectOneKeeps(log10: real -> real, q: Request, e0: Economy, held: map<string, Ctx>, s: Collecting,
                        r: Response, owners: set<string>)
    requires Reputation.IsLog10(log10) && WellPriced(q) && KnownContexts(q, held) && Pool(q) <= owners
    requires CollectingInv(q, e0, held, s, owners)
    ensures CollectingInv(q, e0, held, CollectOne(log10, q, held, s, r), owners)
  {
    var after := CollectOne(log10, q, held, s, r);
    if r.source in s.responded {
    } else if r.source !in held {
      assert held.Keys - after.responded == held.Keys - s.responded;
    } else {
      var ctx := held[r.source];
      ServerForListed(q.servers, OrgOf(r.source));
      var c := ChargeFor(q, r.source, ctx);
      assert c.holdId in HoldIds(q, held.Keys - s.responded);
      assert Parties(c) <= Pool(q);
      SettleOrRefundEffect(log10, s.economy, c, r.answer, owners);
      BillIsSound(log10, s.economy, c, r.answer);
      CloseShrinks(q, e0.book, s.economy.book, after.economy.book, held.Keys, held.Keys - s.responded, r.source);
      assert held.Keys - after.responded == (held.Keys - s.responded) - {r.source};
      TotalIssueAppend(s.receipts, ReceiptFor(log10, s.economy, c, r.answer));
    }
  }

  lemma {:induction false} CollectKeeps(log10: real -> real, q: Request, e0: Economy, held: map<string, Ctx>,
                                        s: Collecting, rs: seq<Response>, owners: set<string>)
    requires Reputation.IsLog10(log10) && WellPriced(q) && KnownContexts(q, held) && Pool(q) <= owners
    requires CollectingInv(q, e0, held, s, owners)
    ensures CollectingInv(q, e0, held, Collect(log10, q, held, s, rs), owners)
    decreases |rs|
  {
    if rs != [] {
      CollectOneKeeps(log10, q, e0, held, s, rs[0], owners);
      CollectKeeps(log10, q, e0, held, CollectOne(log10, q, held, s, rs[0]), rs[1..], owners);
    }
  }

  // ---- the sweep ----

  lemma RefundCloses(q: Request, b0: Book, b: Book, placed: set<string>, open: set<string>, target: string,
                     owners: set<string>)
    requires Outstanding(q, b0, b, placed, open) && target in open && q.source in owners
    ensures var after := Post(b, Entry(q.source, Refund(CastHoldId(q.messageId, target)))).book;
      Outstanding(q, b0, after, placed, open - {target}) && Supply(after, owners) == Supply(b, owners)
  {
    var e := Entry(q.source, Refund(CastHoldId(q.messageId, target)));
    var after := Post(b, e).book;
    assert CastHoldId(q.messageId, target) in HoldIds(q, open);
    PostKeepsAudited(b, e);
    PostMovesSupply(b, e, owners);
    forall o, i ensures Opens(after, o, i) == Opens(b, o, i) { PostOpens(b, e, o, i); }
    CloseShrinks(q, b0, b, after, placed, open, target);
  }

  lemma {:induction false} SweepCloses(q: Request, b0: Book, b: Book, placed: set<string>, open: set<string>,
                                       order: seq<string>, responded: set<string>, owners: set<string>)
    requires Outstanding(q, b0, b, placed, open) && q.source in owners
    requires forall t :: t in open ==> t in order
    requires forall t :: t in order ==> (t in open <==> t !in responded)
    requires forall i, j :: 0 <= i < j < |order| ==> order[i] != order[j]
    ensures Outstanding(q, b0, Sweep(q, b, order, responded), placed, {})
    ensures Supply(Sweep(q, b, order, responded), owners) == Supply(b, owners)
    decreases |order|
  {
    if order == [] {
      assert open == {};
    } else {
      var t := order[0];
      forall u | u in order[1..] ensures u != t && u in order { }
      if t in responded {
        SweepCloses(q, b0, b, placed, open, order[1..], responded, owners);
      } else {
        RefundCloses(q, b0, b, placed, open, t, owners);
        var next := Post(b, Entry(q.source, Refund(CastHoldId(q.messageId, t)))).book;
        SweepCloses(q, b0, next, placed, open - {t}, order[1..], responded, owners);
      }
    }
  }

  // ---- the theorems ----

  lemma PlacedKeeps(q: Request, b0: Book, targets: seq<string>, owners: set<string>)
    requires WellPriced(q) && Audited(b0) && FreshIds(q, b0, targets) && q.source in owners
    ensures var p := Placed(q, b0, targets);
      PlacingInv(q, b0, p) && Supply(p.book, owners) == Supply(b0, owners)
  {
    var start := Placing(b0, map[], [], [], map[], false);
    assert HoldIds(q, start.held.Keys) == {};
    assert WalletOf(b0, q.source).holds - {} == WalletOf(b0, q.source).holds;
    PlaceKeeps(q, b0, start, targets);
    PlaceKeepsSupply(q, start, targets, owners);
  }

  lemma CastGetSettlesAll(log10: real -> real, q: Request, targets: seq<string>, e: Economy, delivery: Delivery,
                          owners: set<string>)
    requires Reputation.IsLog10(log10) && WellPriced(q) && Audited(e.book) && Pool(q) <= owners
    requires FreshIds(q, e.book, targets)
    ensures var run := CastGet(log10, q, targets, e, delivery);
      && !run.placing.aborted
      && Outstanding(q, e.book, run.economy.book, run.placing.held.Keys, {})
      && Supply(run.economy.book, owners) == Supply(e.book, owners) + TotalIssue(run.receipts)
      && SoundReceipts(run.receipts)
  {
    PlacedKeeps(q, e.book, targets, owners);
    var p := Placed(q, e.book, targets);
    var placed := p.held.Keys;
    if p.deliverable == [] {
      assert placed == {};
    } else {
      match delivery
      case BusRaised =>
        SweepCloses(q, e.book, p.book, placed, placed, p.order, {}, owners);
      case Replies(rs) =>
        var s0 := Collecting(e.(book := p.book), {}, []);
        assert placed - s0.responded == placed;
        CollectKeeps(log10, q, e, p.held, s0, rs, owners);
        var s := Collect(log10, q, p.held, s0, rs);
        SweepCloses(q, e.book, s.economy.book, placed, placed - s.responded, p.order, s.responded, owners);
    }
  }

  lemma NothingOutstanding(q: Request, b0: Book, b: Book, placed: set<string>)
    requires Outstanding(q, b0, b, placed, {}) && Audited(b0)
    ensures forall o :: SameHolds(b0, b, o)
    ensures forall o, id ::
      Closings(b, o, id) == Closings(b0, o, id) + (if o == q.source && id in HoldIds(q, placed) then 1 else 0)
  {
    assert WalletOf(b, q.source).holds - HoldIds(q, {}) == WalletOf(b, q.source).holds;
    forall o ensures SameHolds(b0, b, o) { }
    forall o, id
      ensures Closings(b, o, id)
        == Closings(b0, o, id) + (if o == q.source && id in HoldIds(q, placed) then 1 else 0)
    {
      OpensMatchClosings(b0, o, id);
      OpensMatchClosings(b, o, id);
      assert SameHolds(b0, b, o);
    }
  }

  /** No broadcast leaks a hold. For every list of targets (repeated ones
      included), every list of responses (duplicates, strangers, any truncation),
      every pattern of failing settlements, and for a dispatch that raises: no
      wallet has more or fewer open holds than before, every hold the broadcast
      placed was opened once and closed once, no other hold was opened or closed,
      and the supply moved by what the settlements issued. */
  lemma CastGetIsSafe(log10: real -> real, q: Request, targets: seq<string>, e: Economy, delivery: Delivery,
                      owners: set<string>)
    requires Reputation.IsLog10(log10) && WellPriced(q) && Audited(e.book) && Pool(q) <= owners
    requires FreshIds(q, e.book, targets)
    ensures var run := CastGet(log10, q, targets, e, delivery);
      && Audited(run.economy.book) && !run.placing.aborted
      && (forall o :: SameHolds(e.book, run.economy.book, o))
      && (forall o, id ::
            var once := if o == q.source && id in HoldIds(q, run.placing.held.Keys) then 1 else 0;
            && Opens(run.economy.book, o, id) == Opens(e.book, o, id) + once
            && Closings(run.economy.book, o, id) == Closings(e.book, o, id) + once)
      && Supply(run.economy.book, owners) == Supply(e.book, owners) + TotalIssue(run.receipts)
      && SoundReceipts(run.receipts)
  {
    CastGetSettlesAll(log10, q, targets, e, delivery, owners);
    var run := CastGet(log10, q, targets, e, delivery);
    NothingOutstanding(q, e.book, run.economy.book, run.placing.held.Keys);
  }

  /** Conservation: when no settlement is cut short by an infrastructure fault,
      the total credit over all wallets is unchanged exactly when every settled
      response could afford its leaf; otherwise it grows by exactly the server
      shares that went negative. Callers, servers, providers, broker and commons
      may coincide in any way. */
  lemma CastGetConserves(log10: real -> real, q: Request, targets: seq<string>, e: Economy, delivery: Delivery,
                         owners: set<string>)
    requires Reputation.IsLog10(log10) && WellPriced(q) && Audited(e.book) && Pool(q) <= owners
    requires FreshIds(q, e.book, targets)
    requires forall r :: r in CastGet(log10, q, targets, e, delivery).receipts ==> r.fault.NoFault?
    ensures var run := CastGet(log10, q, targets, e, delivery);
      && Supply(run.economy.book, owners) == Supply(e.book, owners) + Shortfalls(run.receipts)
      && (Supply(run.economy.book, owners) == Supply(e.book, owners)
          <==> forall r :: r in run.receipts && r.covered ==> r.bill.toServer >= 0.0)
  {
    CastGetIsSafe(log10, q, targets, e, delivery, owners);
    UninterruptedIssue(CastGet(log10, q, targets, e, delivery).receipts);
  }
}
