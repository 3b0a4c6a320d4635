/** Which targets a broadcast reaches: everybody nobody bills for, and everybody the
    caller can still pay for in turn. */
module Admission {
  import opened Common
  import opened Wallets
  import opened Ledger
  import opened Broker
  import opened Dispatch
  import opened CastGets
  import opened SendGets

  predicate Served(q: Request, t: string) { ServerFor(q.servers, OrgOf(t)).Some? }

  /** What is held for a target, given that a server bills for it. */
  function Price(q: Request, t: string): real
  {
    match ServerFor(q.servers, OrgOf(t)) case None => 0.0 case Some(s) => HoldAmount(q, s)
  }

  function Reserved(q: Request, order: seq<string>): real
  {
    if order == [] then 0.0 else Price(q, order[0]) + Reserved(q, order[1..])
  }

  /** Those of the targets, repetitions included, that are held for or unbilled. */
  function Audience(q: Request, held: set<string>, targets: seq<string>): seq<string>
  {
    if targets == [] then []
    else (if !Served(q, targets[0]) || targets[0] in held then [targets[0]] else []) + Audience(q, held, targets[1..])
  }

  lemma {:induction false} ReservedAppend(q: Request, order: seq<string>, t: string)
    ensures Reserved(q, order + [t]) == Reserved(q, order) + Price(q, t)
  {
    if order == [] {
      assert [t][1..] == [];
    } else {
      assert (order + [t])[1..] == order[1..] + [t];
      ReservedAppend(q, order[1..], t);
    }
  }

  lemma {:induction false} AudienceAppend(q: Request, held: set<string>, targets: seq<string>, t: string)
    ensures Audience(q, held, targets + [t])
         == Audience(q, held, targets) + (if !Served(q, t) || t in held then [t] else [])
  {
    if targets == [] {
      assert [t][1..] == [];
    } else {
      assert (targets + [t])[1..] == targets[1..] + [t];
      AudienceAppend(q, held, targets[1..], t);
    }
  }

  lemma {:induction false} AudienceNewcomer(q: Request, held: set<string>, targets: seq<string>, t: string)
    requires t !in targets
    ensures Audience(q, held + {t}, targets) == Audience(q, held, targets)
  {
    if targets != [] { AudienceNewcomer(q, held, targets[1..], t); }
  }

  /** After the targets in `done`: what is left to the caller is what it had without
      the prices of those held for, and it does not suffice for anybody left out. */
  ghost predicate Fair(q: Request, b0: Book, p: Placing, done: seq<string>)
  {
    var left := WalletOf(p.book, q.source).Available();
    && left == WalletOf(b0, q.source).Available() - Reserved(q, p.order)
    && p.deliverable == Audience(q, p.held.Keys, done)
    && (forall t :: t in p.held ==> t in done && Served(q, t))
    && (forall t :: t in done && Served(q, t) && t !in p.held ==> left < Price(q, t))
  }

  lemma OpenExactly(q: Request, b0: Book, p: Placing, t: string)
    requires PlacingInv(q, b0, p) && !IsOpen(b0, q.source, CastHoldId(q.messageId, t))
    ensures IsOpen(p.book, q.source, CastHoldId(q.messageId, t)) <==> t in p.held
  {
    var id := CastHoldId(q.messageId, t);
    if t !in p.held && id in HoldIds(q, p.held.Keys) {
      var u :| u in p.held && CastHoldId(q.messageId, u) == id;
      CastHoldIdInjective(q.messageId, u, t);
    }
    assert id in WalletOf(p.book, q.source).holds && id !in HoldIds(q, p.held.Keys) ==>
      id in WalletOf(p.book, q.source).holds - HoldIds(q, p.held.Keys);
  }

  /** The hold of one target: repeated for nothing, granted if it can be paid, refused
      otherwise. */
  lemma Attempt(q: Request, b0: Book, p: Placing, t: string, server: Server)
    requires PlacingInv(q, b0, p) && !IsOpen(b0, q.source, CastHoldId(q.messageId, t))
    requires ServerFor(q.servers, OrgOf(t)) == Some(server) && server.baseRate >= 0.0
    ensures var left := WalletOf(p.book, q.source).Available();
      var post := Post(p.book, Entry(q.source, Hold(CastHoldId(q.messageId, t), HoldAmount(q, server))));
      && (t in p.held ==> post.error.None? && WalletOf(post.book, q.source).Available() == left)
      && (t !in p.held && Price(q, t) <= left ==>
            post.error.None? && WalletOf(post.book, q.source).Available() == left - Price(q, t))
      && (t !in p.held && Price(q, t) > left ==> post.error == Some(InsufficientFunds))
  {
    OpenExactly(q, b0, p, t);
    HoldAmountNonNegative(q, server);
  }

  /** Whoever is in the dictionary stays; nobody joins it. */
  lemma NobodyJoins(q: Request, b0: Book, p: Placing, next: Placing, t: string, done: seq<string>)
    requires Fair(q, b0, p, done) && next.held.Keys == p.held.Keys && next.order == p.order
    requires WalletOf(next.book, q.source).Available() == WalletOf(p.book, q.source).Available()
    requires next.deliverable == p.deliverable + (if !Served(q, t) || t in p.held then [t] else [])
    requires Served(q, t) && t !in p.held ==> WalletOf(p.book, q.source).Available() < Price(q, t)
    ensures Fair(q, b0, next, done + [t])
  {
    assert forall u :: u in done + [t] <==> u in done || u == t;
    AudienceAppend(q, p.held.Keys, done, t);
  }

  /** A newcomer has not been turned away before: there was more money then. */
  lemma NewcomerJoins(q: Request, b0: Book, p: Placing, next: Placing, t: string, done: seq<string>)
    requires Fair(q, b0, p, done) && Served(q, t) && t !in p.held
    requires 0.0 <= Price(q, t) <= WalletOf(p.book, q.source).Available()
    requires next.held.Keys == p.held.Keys + {t} && next.order == p.order + [t] && next.deliverable == p.deliverable + [t]
    requires WalletOf(next.book, q.source).Available() == WalletOf(p.book, q.source).Available() - Price(q, t)
    ensures Fair(q, b0, next, done + [t])
  {
    assert t !in done;
    assert forall u :: u in done + [t] <==> u in done || u == t;
    ReservedAppend(q, p.order, t);
    AudienceNewcomer(q, p.held.Keys, done, t);
    AudienceAppend(q, next.held.Keys, done, t);
    assert next.held.Keys == p.held.Keys + {t};
  }

  predicate Joins(q: Request, p: Placing, t: string)
  {
    Served(q, t) && t !in p.held && Price(q, t) <= WalletOf(p.book, q.source).Available()
  }

  ghost predicate Turned(q: Request, p: Placing, t: string, next: Placing)
  {
    var left := WalletOf(p.book, q.source).Available();
    if Joins(q, p, t) then
      && next.held.Keys == p.held.Keys + {t} && next.order == p.order + [t]
      && next.deliverable == p.deliverable + [t]
      && WalletOf(next.book, q.source).Available() == left - Price(q, t)
    else
      && next.held.Keys == p.held.Keys && next.order == p.order && WalletOf(next.book, q.source).Available() == left
      && next.deliverable == p.deliverable + (if !Served(q, t) || t in p.held then [t] else [])
  }

  lemma KnownTurn(q: Request, b0: Book, p: Placing, t: string, server: Server)
    requires PlacingInv(q, b0, p) && !IsOpen(b0, q.source, CastHoldId(q.messageId, t)) && t in p.held
    requires ServerFor(q.servers, OrgOf(t)) == Some(server) && server.baseRate >= 0.0
    ensures Turned(q, p, t, PlaceOne(q, p, t))
  {
    Attempt(q, b0, p, t, server);
    assert p.held.Keys + {t} == p.held.Keys;
  }

  lemma ServedTurn(q: Request, b0: Book, p: Placing, t: string, server: Server)
    requires PlacingInv(q, b0, p) && !IsOpen(b0, q.source, CastHoldId(q.messageId, t)) && t !in p.held
    requires ServerFor(q.servers, OrgOf(t)) == Some(server) && server.baseRate >= 0.0
    ensures Turned(q, p, t, PlaceOne(q, p, t))
  {
    Attempt(q, b0, p, t, server);
  }

  /** What the loop does with one target, in terms of the dictionary and the money. */
  lemma OneTurn(q: Request, b0: Book, p: Placing, t: string, next: Placing)
    requires WellPriced(q) && PlacingInv(q, b0, p) && !IsOpen(b0, q.source, CastHoldId(q.messageId, t))
    requires next == PlaceOne(q, p, t)
    ensures Price(q, t) >= 0.0 && Turned(q, p, t, next)
  {
    var found := ServerFor(q.servers, OrgOf(t));
    if found.Some? {
      ServerForListed(q.servers, OrgOf(t));
      HoldAmountNonNegative(q, found.value);
      if t in p.held { KnownTurn(q, b0, p, t, found.value); } else { ServedTurn(q, b0, p, t, found.value); }
    }
  }

  lemma PlaceOneIsFair(q: Request, b0: Book, p: Placing, t: string, done: seq<string>, next: Placing)
    requires WellPriced(q) && PlacingInv(q, b0, p) && Fair(q, b0, p, done)
    requires !IsOpen(b0, q.source, CastHoldId(q.messageId, t)) && next == PlaceOne(q, p, t)
    ensures Fair(q, b0, next, done + [t])
  {
    OneTurn(q, b0, p, t, next);
    if Joins(q, p, t) { NewcomerJoins(q, b0, p, next, t, done); } else { NobodyJoins(q, b0, p, next, t, done); }
  }

  lemma PlaceUnfolds(q: Request, b0: Book, p: Placing, targets: seq<string>)
    requires PlacingInv(q, b0, p) && targets != []
    ensures Place(q, p, targets) == Place(q, PlaceOne(q, p, targets[0]), targets[1..])
  {
  }

  lemma OneMoreDone(done: seq<string>, targets: seq<string>)
    requires targets != []
    ensures done + targets == (done + [targets[0]]) + targets[1..]
  {
  }

  lemma {:induction false} PlaceIsFair(q: Request, b0: Book, p: Placing, targets: seq<string>, done: seq<string>,
                                       end: Placing)
    requires WellPriced(q) && PlacingInv(q, b0, p) && Fair(q, b0, p, done) && FreshIds(q, b0, targets)
    requires end == Place(q, p, targets)
    ensures Fair(q, b0, end, done + targets)
    decreases |targets|
  {
    if targets == [] {
      assert done + targets == done;
    } else {
      var next := PlaceOne(q, p, targets[0]);
      PlaceOneKeeps(q, b0, p, targets[0]);
      PlaceOneIsFair(q, b0, p, targets[0], done, next);
      PlaceUnfolds(q, b0, p, targets);
      OneMoreDone(done, targets);
      assert FreshIds(q, b0, targets[1..]);
      PlaceIsFair(q, b0, next, targets[1..], done + [targets[0]], end);
    }
  }

  /** The broadcast goes to exactly the targets that nobody bills for and those it
      could hold for, in the order given; a target is left out only if, at the end
      still, the caller cannot pay its price; and no more is reserved than those prices. */
  lemma ReachesWhoCanBePaid(q: Request, b: Book, targets: seq<string>)
    requires WellPriced(q) && Audited(b) && FreshIds(q, b, targets)
    ensures Fair(q, b, Placed(q, b, targets), targets)
  {
    var start := Placing(b, map[], [], [], map[], false);
    assert HoldIds(q, start.held.Keys) == {};
    assert WalletOf(b, q.source).holds - {} == WalletOf(b, q.source).holds;
    PlaceIsFair(q, b, start, targets, [], Placed(q, b, targets));
    assert [] + targets == targets;
  }

  /** What the caller of a broadcast gets back: the responses, nothing if nobody was
      reached, or the exception of the bus. */
  lemma CastGetAnswers(log10: real -> real, q: Request, targets: seq<string>, e: Economy, delivery: Delivery)
    requires WellPriced(q) && Audited(e.book) && FreshIds(q, e.book, targets)
    ensures var run := CastGet(log10, q, targets, e, delivery);
      var reached := Audience(q, run.placing.held.Keys, targets);
      run.result == if reached == [] then Returned([])
                    else match delivery case BusRaised => Raised case Replies(rs) => Returned(rs)
  {
    PlacedKeeps(q, e.book, targets, {q.source});
    ReachesWhoCanBePaid(q, e.book, targets);
  }

  /** What the caller of a single request gets back. Without a server it is free; with
      one it is not sent unless the caller can pay the estimate. */
  lemma SendGetAnswers(log10: real -> real, q: Request, target: string, e: Economy, outcome: SendOutcome)
    requires WellPriced(q) && !IsOpen(e.book, q.source, SendHoldId(q.messageId))
    ensures var run, found := SendGet(log10, q, target, e, outcome), FirstServerFor(q.servers, OrgOf(target));
      var heard := match outcome case SendRaised => Failed case NoAnswer => NoReply case Answered(_) => Replied;
      && (found.None? ==> run.result == heard && run.economy == e && run.receipts == [])
      && (found.Some? && WalletOf(e.book, q.source).Available() < HoldAmount(q, found.value) ==>
            run.result == NoReply && run.economy == e && run.receipts == [])
      && (found.Some? && WalletOf(e.book, q.source).Available() >= HoldAmount(q, found.value) ==>
            run.result == heard && |run.receipts| == if outcome.Answered? then 1 else 0)
  {
    var found := FirstServerFor(q.servers, OrgOf(target));
    if found.Some? {
      FirstServerListed(q.servers, OrgOf(target));
      HoldAmountNonNegative(q, found.value);
    }
  }
}
