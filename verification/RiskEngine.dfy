/** The position limit (risk/risk_engine.cpp). */
module RiskEngines {
  import opened Events

  datatype Risk = Risk(position: real, maxPosition: real)

  /** The order is tested against the position as it is now; orders already on their way are
      not counted. */
  predicate Allows(r: Risk, o: Order) {
    Abs(r.position + SignedQty(o.side, o.quantity)) <= r.maxPosition
  }

  function Moved(r: Risk, quantity: real): Risk {
    r.(position := r.position + quantity)
  }

  class RiskEngine {
    var currentPosition: real
    const maxPosition: real

    ghost function View(): Risk
      reads this
    {
      Risk(currentPosition, maxPosition)
    }

    constructor (maxPos: real)
      ensures View() == Risk(0.0, maxPos)
    {
      currentPosition, maxPosition := 0.0, maxPos;
    }

    method CheckOrder(o: Order) returns (ok: bool)
      ensures ok <==> Allows(View(), o)
      ensures ok <==>
              -maxPosition <= currentPosition + (if o.side.Buy? then o.quantity else -o.quantity) <= maxPosition
    {
      if Abs(currentPosition + SignedQty(o.side, o.quantity)) > maxPosition {
        return false;
      }
      return true;
    }

    method UpdatePosition(quantity: real)
      modifies this
      ensures View() == Moved(old(View()), quantity)
      ensures currentPosition == old(currentPosition) + quantity
    {
      currentPosition := currentPosition + quantity;
    }
  }
}
