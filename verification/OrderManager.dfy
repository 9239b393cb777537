/** The order manager (oms/order_manager.cpp). */
module OrderManagers {
  import opened Events
  import opened EventQueues
  import opened RiskEngines

  /** `validate_order` */
  predicate Validates(r: Risk, o: Order) {
    o.quantity > 0.0 && (o.kind.Limit? ==> o.price > 0.0) && Allows(r, o)
  }

  function OnRequest(active: map<nat, Order>, r: Risk, o: Order): (map<nat, Order>, seq<Event>) {
    if Validates(r, o) then (active[o.id := o], [ValidatedOrder(o)]) else (active, [])
  }

  function OnReport(active: map<nat, Order>, r: Report): map<nat, Order> {
    if Terminal(r.status) then active - {r.orderId} else active
  }

  class OrderManager {
    const queue: EventQueue
    const risk: RiskEngine
    var active: map<nat, Order>

    constructor (queue: EventQueue, risk: RiskEngine)
      ensures active == map[] && this.queue == queue && this.risk == risk
    {
      this.queue, this.risk, active := queue, risk, map[];
    }

    method HandleOrderRequest(o: Order)
      modifies this, queue
      ensures active == OnRequest(old(active), old(risk.View()), o).0
      ensures queue.View() == AfterPushes(old(queue.View()), OnRequest(old(active), old(risk.View()), o).1)
      ensures var position := old(risk.currentPosition) + if o.side.Buy? then o.quantity else -o.quantity;
              var fits := o.quantity > 0.0 && (o.kind.Limit? ==> o.price > 0.0) &&
                -risk.maxPosition <= position <= risk.maxPosition;
              active == (if fits then old(active)[o.id := o] else old(active)) &&
              queue.View() == if fits then AfterPush(old(queue.View()), ValidatedOrder(o)) else old(queue.View())
    {
      var valid := ValidateOrder(o);
      if valid {
        active := active[o.id := o];
        var _ := queue.Push(ValidatedOrder(o));
        assert [ValidatedOrder(o)][..0] == [];
      }
    }

    method ValidateOrder(o: Order) returns (ok: bool)
      ensures ok <==> Validates(risk.View(), o)
      ensures ok <==>
              o.quantity > 0.0 && (o.kind.Limit? ==> o.price > 0.0) &&
              -risk.maxPosition <= risk.currentPosition + (if o.side.Buy? then o.quantity else -o.quantity)
              <= risk.maxPosition
    {
      if o.quantity <= 0.0 {
        return false;
      }
      if o.kind.Limit? && o.price <= 0.0 {
        return false;
      }
      ok := risk.CheckOrder(o);
    }

    method HandleExecutionReport(r: Report)
      modifies this
      ensures active == OnReport(old(active), r)
      ensures active ==
              if r.status in {Filled, Cancelled, Rejected} then old(active) - {r.orderId} else old(active)
    {
      if r.orderId in active {
        if r.status.Filled? || r.status.Cancelled? || r.status.Rejected? {
          active := active - {r.orderId};
        }
      }
    }
  }
}
