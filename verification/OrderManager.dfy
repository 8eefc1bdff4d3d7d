/** Signal to order to broker, behind the risk rules (app/orders/order_manager.py). */
module OrderManagement {
  import opened Common
  import opened Orders
  import opened PaperAccount
  import opened PaperBrokers
  import opened RiskRules

  datatype OrderSignal = OrderSignal(
    symbol: Symbol,
    side: Side,
    quantity: int,
    limitPrice: Option<real>,
    stopLossPct: Option<real>
  )

  function CreateOrder(signal: OrderSignal): OrderRequest {
    OrderRequest(signal.symbol, signal.side, signal.quantity, signal.limitPrice, signal.stopLossPct)
  }

  /** The manager reports a broker refusal as a failed order. */
  function Report(r: OrderResult): OrderResult {
    if r.accepted then r else r.(status := Failed)
  }

  function RefusedByRisk(code: RiskReasonCode): OrderResult {
    Refused(None, RejectedRisk, RiskRefusal(code))
  }

  function SubmitOrder(
    l: RiskLimits, a: Account, o: OrderRequest, s: RiskSnapshot, clock: Clock, quote: Symbol -> real)
    : (Account, OrderResult)
  {
    var d := ApproveOrder(l, o, s, clock);
    if !d.approved then (a, RefusedByRisk(d.code))
    else
      var (a', r) := Place(a, o, quote);
      (a', Report(r))
  }

  /** `process_signal`: the rules are asked at `first`, and by `submit` again at `second`. */
  function Process(
    l: RiskLimits, a: Account, signal: OrderSignal, s: RiskSnapshot,
    first: Clock, second: Clock, quote: Symbol -> real): (Account, OrderResult)
  {
    var o := CreateOrder(signal);
    var d := ApproveOrder(l, o, s, first);
    if !d.approved then (a, RefusedByRisk(d.code))
    else SubmitOrder(l, a, o, s, second, quote)
  }

  class OrderManager {
    const broker: PaperBroker
    const limits: RiskLimits

    constructor (broker: PaperBroker, limits: RiskLimits)
      ensures this.broker == broker && this.limits == limits
    {
      this.broker := broker;
      this.limits := limits;
    }

    method Submit(order: OrderRequest, snapshot: RiskSnapshot, clock: Clock) returns (result: OrderResult)
      modifies broker
      ensures broker.State() == SubmitOrder(limits, old(broker.State()), order, snapshot, clock, broker.quote).0
      ensures result == SubmitOrder(limits, old(broker.State()), order, snapshot, clock, broker.quote).1
    {
      var decision := ApproveOrder(limits, order, snapshot, clock);
      if !decision.approved {
        return RefusedByRisk(decision.code);
      }
      var placed := broker.PlaceOrder(order);
      if !placed.accepted {
        return placed.(status := Failed);
      }
      result := placed;
    }

    method ProcessSignal(signal: OrderSignal, snapshot: RiskSnapshot, first: Clock, second: Clock)
      returns (result: OrderResult)
      modifies broker
      ensures broker.State() == Process(limits, old(broker.State()), signal, snapshot, first, second, broker.quote).0
      ensures result == Process(limits, old(broker.State()), signal, snapshot, first, second, broker.quote).1
    {
      var order := CreateOrder(signal);
      var decision := ApproveOrder(limits, order, snapshot, first);
      if !decision.approved {
        return RefusedByRisk(decision.code);
      }
      result := Submit(order, snapshot, second);
    }
  }

  /** The second check never overturns the first: what the rules approve reaches the broker, and
      the answer carries a risk refusal exactly when the first check refused. */
  lemma SecondCheckAgrees(
    l: RiskLimits, a: Account, signal: OrderSignal, s: RiskSnapshot,
    first: Clock, second: Clock, quote: Symbol -> real)
    requires NoEarlier(second, first)
    ensures var (a', r) := Process(l, a, signal, s, first, second, quote);
            var o := OrderRequest(signal.symbol, signal.side, signal.quantity, signal.limitPrice, signal.stopLossPct);
            var d, (placed, answer) := ApproveOrder(l, o, s, first), Place(a, o, quote);
            && (r.status == RejectedRisk <==> !d.approved)
            && (!d.approved ==> a' == a && !r.accepted && r.refusal == Some(RiskRefusal(d.code)))
            && (d.approved ==> a' == placed && r == if answer.accepted then answer else answer.(status := Failed))
  {
    if ApproveOrder(l, CreateOrder(signal), s, first).approved {
      ApprovalSurvivesWaiting(l, CreateOrder(signal), s, second, first);
    }
  }
}
