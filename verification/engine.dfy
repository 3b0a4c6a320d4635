/** The engine object that runs both dispatch paths on a broker. */
module Engine {
  import opened Common
  import opened Wallets
  import opened ComputeProvider
  import opened Broker
  import opened Dispatch
  import opened CastGets
  import opened SendGets

  // ---- the engine object ----

  class ProtocolEngine {
    const broker: BrokerFacade

    constructor (broker: BrokerFacade)
      ensures this.broker == broker
    {
      this.broker := broker;
    }

    method SettleResponse(log10: real -> real, c: Charge, a: Answer)
      modifies broker`reputations, broker.bank
      ensures broker.View() == SettleOrRefund(log10, old(broker.View()), c, a)
    {
      var raised := broker.CalculateAndSettle(log10, c, a);
      if raised { var ignored := broker.bank.Refund(c.caller, c.holdId); }
    }

    method RefundUnanswered(q: Request, order: seq<string>, responded: set<string>)
      modifies broker.bank
      ensures broker.bank.View() == Sweep(q, old(broker.bank.View()), order, responded)
    {
      for i := 0 to |order|
        invariant Sweep(q, broker.bank.View(), order[i..], responded)
               == Sweep(q, old(broker.bank.View()), order, responded)
      {
        assert order[i..][1..] == order[i + 1..];
        if order[i] !in responded {
          var ignored := broker.bank.Refund(q.source, CastHoldId(q.messageId, order[i]));
        }
      }
    }

    /** One hold per target; targets that cannot be held for are dropped. */
    method PlaceHolds(q: Request, targets: seq<string>)
      returns (held: map<string, Ctx>, order: seq<string>, deliverable: seq<string>, aborted: bool)
      modifies broker.bank
      ensures var p := Placed(q, old(broker.bank.View()), targets);
        broker.bank.View() == p.book && held == p.held && order == p.order
        && deliverable == p.deliverable && aborted == p.aborted
    {
      ghost var placed := Placed(q, broker.bank.View(), targets);
      held, order, deliverable, aborted := map[], [], [], false;
      var leafByServer: map<string, Option<MenuLeaf>> := map[];
      for i := 0 to |targets|
        invariant Place(q, Placing(broker.bank.View(), held, order, deliverable, leafByServer, false), targets[i..])
               == placed
        invariant !aborted
      {
        assert targets[i..][1..] == targets[i + 1..];
        var target := targets[i];
        var owning := ServerFor(q.servers, OrgOf(target));
        if owning == None {
          deliverable := deliverable + [target];
          continue;
        }
        var server := owning.value;
        if server.serverId !in leafByServer {
          leafByServer := leafByServer[server.serverId := BoundLeaf(q, server)];
        }
        var error := broker.bank.Hold(q.source, CastHoldId(q.messageId, target), HoldAmount(q, server));
        match error {
          case Some(InsufficientFunds) => continue;
          case Some(_) =>
            aborted := true;
            return;
          case None =>
        }
        if target !in held { order := order + [target]; }
        held := held[target := Ctx(server, leafByServer[server.serverId])];
        deliverable := deliverable + [target];
      }
    }

    /** One settlement per responder that was held for. */
    method SettleResponses(log10: real -> real, q: Request, held: map<string, Ctx>, responses: seq<Response>)
      returns (responded: set<string>)
      modifies broker`reputations, broker.bank
      ensures var s := Collect(log10, q, held, Collecting(old(broker.View()), {}, []), responses);
        broker.View() == s.economy && responded == s.responded
    {
      responded := {};
      ghost var receipts: seq<Receipt> := [];
      ghost var all := Collect(log10, q, held, Collecting(broker.View(), {}, []), responses);
      for i := 0 to |responses|
        invariant Collect(log10, q, held, Collecting(broker.View(), responded, receipts), responses[i..]) == all
      {
        assert responses[i..][1..] == responses[i + 1..];
        var response := responses[i];
        if response.source in responded { continue; }
        responded := responded + {response.source};
        if response.source !in held { continue; }
        var c := ChargeFor(q, response.source, held[response.source]);
        receipts := receipts + [ReceiptFor(log10, broker.View(), c, response.answer)];
        SettleResponse(log10, c, response.answer);
      }
    }

    method BrokerCastGet(log10: real -> real, q: Request, targets: seq<string>, delivery: Delivery)
      returns (result: CastResult)
      modifies broker`reputations, broker.bank
      ensures var run := CastGet(log10, q, targets, old(broker.View()), delivery);
        broker.View() == run.economy && result == run.result
    {
      var held, order, deliverable, aborted := PlaceHolds(q, targets);
      if aborted { return Raised; }
      if deliverable == [] { return Returned([]); }
      match delivery {
        case BusRaised =>
          RefundUnanswered(q, order, {});
          return Raised;
        case Replies(responses) =>
          var responded := SettleResponses(log10, q, held, responses);
          RefundUnanswered(q, order, responded);
          return Returned(responses);
      }
    }

    method BrokerSendGet(log10: real -> real, q: Request, target: string, outcome: SendOutcome)
      returns (result: SendResult)
      modifies broker`reputations, broker.bank
      ensures var run := SendGet(log10, q, target, old(broker.View()), outcome);
        broker.View() == run.economy && result == run.result
    {
      var owning := FirstServerFor(q.servers, OrgOf(target));
      if owning == None {
        match outcome {
          case SendRaised => return Failed;
          case NoAnswer => return NoReply;
          case Answered(_) => return Replied;
        }
      }
      var server := owning.value;
      var id := SendHoldId(q.messageId);
      var error := broker.bank.Hold(q.source, id, HoldAmount(q, server));
      if error.Some? {
        return if error == Some(InsufficientFunds) then NoReply else Failed;
      }
      match outcome {
        case SendRaised =>
          var ignored := broker.bank.Refund(q.source, id);
          return Failed;
        case NoAnswer =>
          var ignored := broker.bank.Refund(q.source, id);
          return NoReply;
        case Answered(a) =>
          SettleResponse(log10, SendCharge(q, server), a);
          return Replied;
      }
    }
  }
}
