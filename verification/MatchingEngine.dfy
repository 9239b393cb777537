/** The simulated exchange (exchange/matching_engine.cpp). */
module MatchingEngines {
  import opened Events
  import opened EventQueues

  datatype Exchange = Exchange(bestBid: real, bestAsk: real, nextTradeId: nat, resting: seq<Order>)

  const NEW_EXCHANGE := Exchange(0.0, 0.0, 1, [])

  const SPREAD := 0.5

  function Execution(o: Order, price: real, qty: real, status: Status, tradeId: nat): Report {
    Report(o.id, o.strategy, tradeId, o.side, price, qty, qty, if status.Filled? then 0.0 else o.quantity, status)
  }

  function Fill(o: Order, price: real, tradeId: nat): Report {
    Execution(o, price, o.quantity, Filled, tradeId)
  }

  /** Does a resting order trade against these best prices? */
  predicate Crosses(o: Order, bid: real, ask: real) {
    if o.side.Buy? then o.price >= ask else o.price <= bid
  }

  function Touch(side: Side, bid: real, ask: real): real {
    if side.Buy? then ask else bid
  }

  /** The resting orders that cross, or those that do not, in arrival order. */
  function Select(rs: seq<Order>, bid: real, ask: real, crossing: bool): seq<Order> {
    if rs == [] then []
    else
      var o := rs[|rs| - 1];
      Select(rs[..|rs| - 1], bid, ask, crossing) + if Crosses(o, bid, ask) == crossing then [o] else []
  }

  /** One fill each, in order, with consecutive trade ids. */
  function Fills(os: seq<Order>, bid: real, ask: real, tradeId: nat): (rs: seq<Report>)
    ensures |rs| == |os|
    ensures forall i :: 0 <= i < |os| ==> rs[i] == Fill(os[i], Touch(os[i].side, bid, ask), tradeId + i)
  {
    if os == [] then []
    else
      var n := |os| - 1;
      Fills(os[..n], bid, ask, tradeId) + [Fill(os[n], Touch(os[n].side, bid, ask), tradeId + n)]
  }

  /** `update_market_price` */
  function OnTick(x: Exchange, price: real): (Exchange, seq<Report>) {
    var bid, ask := price - SPREAD / 2.0, price + SPREAD / 2.0;
    var filled := Select(x.resting, bid, ask, true);
    (Exchange(bid, ask, x.nextTradeId + |filled|, Select(x.resting, bid, ask, false)),
     Fills(filled, bid, ask, x.nextTradeId))
  }

  /** Unlike the sweep, an arriving limit order trades only against a positive price. */
  predicate Marketable(side: Side, limit: real, bid: real, ask: real) {
    if side.Buy? then ask > 0.0 && limit >= ask else bid > 0.0 && limit <= bid
  }

  /** `process_order` */
  function Process(x: Exchange, o: Order): (Exchange, Report) {
    var x' := x.(nextTradeId := x.nextTradeId + 1);
    var touch := Touch(o.side, x.bestBid, x.bestAsk);
    if o.kind.Market? then
      (x', if touch <= 0.0 then Execution(o, 0.0, 0.0, Rejected, x.nextTradeId) else Fill(o, touch, x.nextTradeId))
    else if Marketable(o.side, o.price, x.bestBid, x.bestAsk) then
      (x', Fill(o, touch, x.nextTradeId))
    else
      (x'.(resting := x.resting + [o]), Execution(o, o.price, 0.0, New, x.nextTradeId))
  }

  /** `cancel_order` reports a cancellation and leaves the resting orders as they are. */
  function Cancel(x: Exchange, id: nat): (Exchange, Report) {
    (x.(nextTradeId := x.nextTradeId + 1),
     Execution(Order(id, 0, Buy, Limit, 0.0, 0.0), 0.0, 0.0, Cancelled, x.nextTradeId))
  }

  function AsEvents(rs: seq<Report>): (es: seq<Event>)
    ensures |es| == |rs| && forall i :: 0 <= i < |rs| ==> es[i] == ExecutionReport(rs[i])
  {
    seq(|rs|, i requires 0 <= i < |rs| => ExecutionReport(rs[i]))
  }

  class MatchingEngine {
    const queue: EventQueue
    var bestBid: real
    var bestAsk: real
    var nextTradeId: nat
    var resting: seq<Order>

    ghost function View(): Exchange
      reads this
    {
      Exchange(bestBid, bestAsk, nextTradeId, resting)
    }

    constructor (queue: EventQueue)
      ensures View() == NEW_EXCHANGE && this.queue == queue
    {
      this.queue := queue;
      bestBid, bestAsk, nextTradeId, resting := 0.0, 0.0, 1, [];
    }

    method EmitExecution(o: Order, price: real, qty: real, status: Status)
      modifies `nextTradeId, queue
      ensures nextTradeId == old(nextTradeId) + 1
      ensures queue.View() ==
              AfterPush(old(queue.View()), ExecutionReport(Execution(o, price, qty, status, old(nextTradeId))))
      ensures Execution(o, price, qty, status, old(nextTradeId)) ==
              Report(o.id, o.strategy, old(nextTradeId), o.side, price, qty, qty,
                     if status.Filled? then 0.0 else o.quantity, status)
    {
      var leaves := if status.Filled? then 0.0 else o.quantity;
      var report := Report(o.id, o.strategy, nextTradeId, o.side, price, qty, qty, leaves, status);
      nextTradeId := nextTradeId + 1;
      var _ := queue.Push(ExecutionReport(report));
    }

    /** The erase-while-iterating sweep; `seen` counts the orders already looked at. */
    method UpdateMarketPrice(price: real)
      modifies this, queue
      ensures View() == OnTick(old(View()), price).0
      ensures queue.View() == AfterPushes(old(queue.View()), AsEvents(OnTick(old(View()), price).1))
    {
      bestBid, bestAsk := price - SPREAD / 2.0, price + SPREAD / 2.0;
      ghost var bid, ask, q, seen := bestBid, bestAsk, queue.View(), 0;
      ghost var start := View();
      SweepStarts(start, q);
      hide Swept, Visited, Select, Fills, AsEvents, AfterPush, AfterPushes;
      var it := 0;
      while it < |resting|
        invariant bestBid == bid && bestAsk == ask
        invariant Swept(start, q, seen, it, View(), queue.View())
        decreases |start.resting| - seen
      {
        ghost var x, q1 := View(), queue.View();
        var filled := VisitResting(it);
        SweepMoves(start, q, seen, it, filled, x, q1, View(), queue.View());
        if !filled {
          it := it + 1;
        }
        seen := seen + 1;
      }
      SweepEnds(old(View()), price, q, seen, it, View(), queue.View());
    }

    /** Fill and erase the resting order at `it` if it crosses the best prices. */
    method VisitResting(it: nat) returns (filled: bool)
      requires it < |resting|
      modifies `nextTradeId, `resting, queue
      ensures bestBid == old(bestBid) && bestAsk == old(bestAsk)
      ensures Visited(old(View()), old(queue.View()), it, filled, View(), queue.View())
    {
      var o := resting[it];
      filled := false;
      if o.side.Buy? && o.price >= bestAsk {
        EmitExecution(o, bestAsk, o.quantity, Filled);
        filled := true;
      } else if o.side.Sell? && o.price <= bestBid {
        EmitExecution(o, bestBid, o.quantity, Filled);
        filled := true;
      }
      if filled {
        resting := resting[..it] + resting[it + 1..];
      }
    }

    method ProcessOrder(o: Order)
      modifies this, queue
      ensures View() == Process(old(View()), o).0
      ensures queue.View() == AfterPush(old(queue.View()), ExecutionReport(Process(old(View()), o).1))
    {
      if o.kind.Market? {
        MatchMarketOrder(o);
      } else {
        MatchLimitOrder(o);
      }
    }

    method MatchMarketOrder(o: Order)
      requires o.kind.Market?
      modifies this, queue
      ensures View() == Process(old(View()), o).0
      ensures queue.View() == AfterPush(old(queue.View()), ExecutionReport(Process(old(View()), o).1))
    {
      var matchPrice := if o.side.Buy? then bestAsk else bestBid;
      if matchPrice <= 0.0 {
        EmitExecution(o, 0.0, 0.0, Rejected);
        return;
      }
      EmitExecution(o, matchPrice, o.quantity, Filled);
    }

    method MatchLimitOrder(o: Order)
      requires o.kind.Limit?
      modifies this, queue
      ensures View() == Process(old(View()), o).0
      ensures queue.View() == AfterPush(old(queue.View()), ExecutionReport(Process(old(View()), o).1))
    {
      var canMatch := false;
      var matchPrice := o.price;
      if o.side.Buy? {
        if bestAsk > 0.0 && o.price >= bestAsk {
          canMatch, matchPrice := true, bestAsk;
        }
      } else {
        if bestBid > 0.0 && o.price <= bestBid {
          canMatch, matchPrice := true, bestBid;
        }
      }
      if canMatch {
        EmitExecution(o, matchPrice, o.quantity, Filled);
      } else {
        resting := resting + [o];
        EmitExecution(o, o.price, 0.0, New);
      }
    }

    method CancelOrder(id: nat)
      modifies this, queue
      ensures View() == Cancel(old(View()), id).0
      ensures queue.View() == AfterPush(old(queue.View()), ExecutionReport(Cancel(old(View()), id).1))
    {
      var dummy := Order(id, 0, Buy, Limit, 0.0, 0.0);
      EmitExecution(dummy, 0.0, 0.0, Cancelled);
    }
  }

  /** The sweep that set out from `x` and `q` has looked at `seen` orders and kept `it` of them. */
  ghost predicate Swept(x: Exchange, q: Queue, seen: nat, it: nat, x': Exchange, q': Queue) {
    && seen <= |x.resting|
    && var bid, ask, looked := x.bestBid, x.bestAsk, x.resting[..seen];
       var kept, filled := Select(looked, bid, ask, false), Select(looked, bid, ask, true);
    && it == |kept|
    && x' == Exchange(bid, ask, x.nextTradeId + |filled|, kept + x.resting[seen..])
    && q' == AfterPushes(q, AsEvents(Fills(filled, bid, ask, x.nextTradeId)))
  }

  /** The order at `it` was filled and erased, exactly if it crosses. */
  ghost predicate Visited(x: Exchange, q: Queue, it: nat, filled: bool, x': Exchange, q': Queue) {
    && it < |x.resting|
    && var o := x.resting[it];
    && filled == Crosses(o, x.bestBid, x.bestAsk)
    && if filled then
         x' == x.(nextTradeId := x.nextTradeId + 1, resting := x.resting[..it] + x.resting[it + 1..]) &&
         q' == AfterPush(q, ExecutionReport(Fill(o, Touch(o.side, x.bestBid, x.bestAsk), x.nextTradeId)))
       else
         x' == x && q' == q
  }

  lemma SweepMoves(x: Exchange, q: Queue, seen: nat, it: nat, filled: bool,
      x1: Exchange, q1: Queue, x2: Exchange, q2: Queue)
    requires Swept(x, q, seen, it, x1, q1) && Visited(x1, q1, it, filled, x2, q2)
    ensures seen < |x.resting| && Swept(x, q, seen + 1, if filled then it else it + 1, x2, q2)
  {
    assert x1.bestBid == x.bestBid && x1.bestAsk == x.bestAsk;
    if filled {
      hide Swept, Crosses, Fill, AfterPush;
      SweepFills(x, q, seen, it, x1, q1, x2, q2);
    } else {
      hide Swept, Crosses, Fill, AfterPush;
      SweepPasses(x, q, seen, it, x1, q1);
    }
  }

  lemma SweepStarts(x: Exchange, q: Queue)
    ensures Swept(x, q, 0, 0, x, q)
  {
  }

  lemma SweepEnds(x: Exchange, price: real, q: Queue, seen: nat, it: nat, x': Exchange, q': Queue)
    requires var bid, ask := price - SPREAD / 2.0, price + SPREAD / 2.0;
             Swept(x.(bestBid := bid, bestAsk := ask), q, seen, it, x', q') && it >= |x'.resting|
    ensures x' == OnTick(x, price).0
    ensures q' == AfterPushes(q, AsEvents(OnTick(x, price).1))
  {
    hide AfterPush, AfterPushes, AsEvents, Fills;
    assert x.resting[..seen] == x.resting;
  }

  /** One turn of the sweep: the order looked at is filled and erased ... */
  lemma SweepFills(x: Exchange, q: Queue, seen: nat, it: nat, x1: Exchange, q1: Queue, x2: Exchange, q2: Queue)
    requires Swept(x, q, seen, it, x1, q1) && it < |x1.resting|
    requires var o := x1.resting[it];
             Crosses(o, x.bestBid, x.bestAsk) &&
             x2 == x1.(nextTradeId := x1.nextTradeId + 1, resting := x1.resting[..it] + x1.resting[it + 1..]) &&
             q2 == AfterPush(q1, ExecutionReport(Fill(o, Touch(o.side, x.bestBid, x.bestAsk), x1.nextTradeId)))
    ensures seen < |x.resting| && Swept(x, q, seen + 1, it, x2, q2)
  {
    hide AfterPush, AfterPushes, AsEvents, Fills;
    var looked, o := x.resting[..seen], x.resting[seen];
    assert x.resting[..seen + 1][..seen] == looked;
    OneMoreFill(q, Select(looked, x.bestBid, x.bestAsk, true), o, x.bestBid, x.bestAsk, x.nextTradeId);
  }

  /** ... or passed over. */
  lemma SweepPasses(x: Exchange, q: Queue, seen: nat, it: nat, x1: Exchange, q1: Queue)
    requires Swept(x, q, seen, it, x1, q1) && it < |x1.resting|
    requires !Crosses(x1.resting[it], x.bestBid, x.bestAsk)
    ensures seen < |x.resting| && Swept(x, q, seen + 1, it + 1, x1, q1)
  {
    hide AfterPush, AfterPushes, AsEvents, Fills;
    assert x.resting[..seen + 1][..seen] == x.resting[..seen];
    assert Select(x.resting[..seen + 1], x.bestBid, x.bestAsk, true) ==
      Select(x.resting[..seen], x.bestBid, x.bestAsk, true);
  }

  lemma OneMoreFill(q: Queue, os: seq<Order>, o: Order, bid: real, ask: real, id: nat)
    ensures AfterPushes(q, AsEvents(Fills(os + [o], bid, ask, id))) ==
            AfterPush(AfterPushes(q, AsEvents(Fills(os, bid, ask, id))),
                 ExecutionReport(Fill(o, Touch(o.side, bid, ask), id + |os|)))
  {
    var es := AsEvents(Fills(os + [o], bid, ask, id));
    assert es[..|os|] == AsEvents(Fills(os, bid, ask, id));
  }

  // The sweep is a stable partition

  /** Positions of the selected orders. */
  ghost function Positions(rs: seq<Order>, bid: real, ask: real, crossing: bool): seq<nat> {
    if rs == [] then []
    else
      var n := |rs| - 1;
      Positions(rs[..n], bid, ask, crossing) + if Crosses(rs[n], bid, ask) == crossing then [n] else []
  }

  /** These positions pick out the selected orders, in their old order. */
  ghost predicate Picks(rs: seq<Order>, ps: seq<nat>, os: seq<Order>) {
    && |ps| == |os|
    && (forall i :: 0 <= i < |ps| ==> ps[i] < |rs| && os[i] == rs[ps[i]])
    && (forall i, j :: 0 <= i < j < |ps| ==> ps[i] < ps[j])
  }

  lemma PicksOneMore(rs: seq<Order>, o: Order, ps: seq<nat>, os: seq<Order>)
    requires Picks(rs, ps, os)
    ensures Picks(rs + [o], ps, os) && Picks(rs + [o], ps + [|rs|], os + [o])
  {
  }

  /** What is kept (or filled) is exactly the orders that do not (or do) cross, each once, in
      their old order. */
  lemma {:induction false} SelectIsStable(rs: seq<Order>, bid: real, ask: real, crossing: bool)
    ensures var ps := Positions(rs, bid, ask, crossing);
            Picks(rs, ps, Select(rs, bid, ask, crossing)) &&
            forall k :: 0 <= k < |rs| ==> (k in ps <==> Crosses(rs[k], bid, ask) == crossing)
  {
    if rs != [] {
      hide Crosses, Picks;
      var n := |rs| - 1;
      var before, o := rs[..n], rs[n];
      SelectIsStable(before, bid, ask, crossing);
      var ps := Positions(before, bid, ask, crossing);
      PicksOneMore(before, o, ps, Select(before, bid, ask, crossing));
      assert rs == before + [o];
      PicksBelow(before, ps, Select(before, bid, ask, crossing));
    } else {
      assert Picks(rs, [], []);
    }
  }

  lemma PicksBelow(rs: seq<Order>, ps: seq<nat>, os: seq<Order>)
    requires Picks(rs, ps, os)
    ensures forall p :: p in ps ==> p < |rs|
  {
  }

  /** Every order is on exactly one side. */
  ghost predicate Partition(rs: seq<Order>, kept: seq<Order>, filled: seq<Order>) {
    multiset(rs) == multiset(kept) + multiset(filled)
  }

  lemma PartitionGrows(rs: seq<Order>, kept: seq<Order>, filled: seq<Order>, o: Order)
    requires Partition(rs, kept, filled)
    ensures Partition(rs + [o], kept + [o], filled) && Partition(rs + [o], kept, filled + [o])
  {
  }

  lemma SelectOneMore(rs: seq<Order>, o: Order, bid: real, ask: real, crossing: bool)
    ensures Select(rs + [o], bid, ask, crossing) ==
            if Crosses(o, bid, ask) == crossing then Select(rs, bid, ask, crossing) + [o]
            else Select(rs, bid, ask, crossing)
  {
    hide Crosses;
    assert (rs + [o])[..|rs|] == rs;
    assert Select(rs, bid, ask, crossing) + [] == Select(rs, bid, ask, crossing);
  }

  lemma {:induction false} SelectPartitions(rs: seq<Order>, bid: real, ask: real)
    ensures Partition(rs, Select(rs, bid, ask, false), Select(rs, bid, ask, true))
  {
    if rs == [] {
    } else {
      hide Crosses, Partition, Select;
      var before, o := rs[..|rs| - 1], rs[|rs| - 1];
      assert rs == before + [o];
      SelectPartitions(before, bid, ask);
      SelectOneMore(before, o, bid, ask, false);
      SelectOneMore(before, o, bid, ask, true);
      PartitionGrows(before, Select(before, bid, ask, false), Select(before, bid, ask, true), o);
    }
  }

  /** The sweep loses no order and invents none. */
  lemma {:induction false} SweepPartitions(rs: seq<Order>, bid: real, ask: real)
    ensures multiset(rs) == multiset(Select(rs, bid, ask, false)) + multiset(Select(rs, bid, ask, true))
  {
    hide Select;
    SelectPartitions(rs, bid, ask);
  }

  // Runs of the exchange

  datatype Input = PriceUpdate(price: real) | Submit(order: Order) | CancelRequest(id: nat)

  function Apply(x: Exchange, i: Input): (Exchange, seq<Report>) {
    match i
    case PriceUpdate(p) => OnTick(x, p)
    case Submit(o) => var (x', r) := Process(x, o); (x', [r])
    case CancelRequest(id) => var (x', r) := Cancel(x, id); (x', [r])
  }

  function Run(x: Exchange, inputs: seq<Input>): (Exchange, seq<Report>)
    decreases |inputs|
  {
    if inputs == [] then (x, [])
    else
      var (x1, r1) := Apply(x, inputs[0]);
      var (x2, r2) := Run(x1, inputs[1..]);
      (x2, r1 + r2)
  }

  function FillsOf(rs: seq<Report>, id: nat): seq<Report> {
    if rs == [] then []
    else (if rs[0].orderId == id && rs[0].status.Filled? then [rs[0]] else []) + FillsOf(rs[1..], id)
  }

  function Prices(inputs: seq<Input>): seq<real> {
    if inputs == [] then []
    else (if inputs[0].PriceUpdate? then [inputs[0].price] else []) + Prices(inputs[1..])
  }

  /** The price at which a resting order with this side and limit first trades, if ever. */
  function FirstCross(side: Side, limit: real, prices: seq<real>): Option<real> {
    if prices == [] then None
    else
      var bid, ask := prices[0] - 0.25, prices[0] + 0.25;
      if side.Buy? && limit >= ask then Some(ask)
      else if side.Sell? && limit <= bid then Some(bid)
      else FirstCross(side, limit, prices[1..])
  }

  /** The fate of a limit order, from its side and limit and prices alone. */
  function Fate(side: Side, limit: real, bid: real, ask: real, later: seq<real>): Option<real> {
    if side.Buy? && ask > 0.0 && limit >= ask then Some(ask)
    else if side.Sell? && bid > 0.0 && limit <= bid then Some(bid)
    else FirstCross(side, limit, later)
  }

  ghost predicate NotSubmitted(inputs: seq<Input>, id: nat) {
    forall i :: 0 <= i < |inputs| && inputs[i].Submit? ==> inputs[i].order.id != id
  }

  ghost predicate NotResting(rs: seq<Order>, id: nat) {
    forall o :: o in rs ==> o.id != id
  }

  lemma {:induction false} FillsOfAppend(a: seq<Report>, b: seq<Report>, id: nat)
    ensures FillsOf(a + b, id) == FillsOf(a, id) + FillsOf(b, id)
  {
    if a == [] {
      assert a + b == b;
    } else {
      assert (a + b)[1..] == a[1..] + b;
      FillsOfAppend(a[1..], b, id);
    }
  }

  lemma {:induction false} SelectAppend(a: seq<Order>, b: seq<Order>, bid: real, ask: real, crossing: bool)
    ensures Select(a + b, bid, ask, crossing) == Select(a, bid, ask, crossing) + Select(b, bid, ask, crossing)
  {
    if b == [] {
      assert a + b == a;
    } else {
      assert (a + b)[..|a + b| - 1] == a + b[..|b| - 1];
      SelectAppend(a, b[..|b| - 1], bid, ask, crossing);
    }
  }

  lemma {:induction false} SelectMembers(rs: seq<Order>, bid: real, ask: real, crossing: bool)
    ensures forall o :: o in Select(rs, bid, ask, crossing) <==> o in rs && Crosses(o, bid, ask) == crossing
  {
    if rs != [] {
      SelectMembers(rs[..|rs| - 1], bid, ask, crossing);
      assert rs == rs[..|rs| - 1] + [rs[|rs| - 1]];
    }
  }

  lemma {:induction false} NoFills(rs: seq<Report>, id: nat)
    requires forall i :: 0 <= i < |rs| ==> rs[i].orderId != id || !rs[i].status.Filled?
    ensures FillsOf(rs, id) == []
  {
    if rs != [] {
      NoFills(rs[1..], id);
    }
  }

  /** An id that is not resting and not submitted again never fills. */
  lemma {:induction false} AbsentNeverFills(x: Exchange, inputs: seq<Input>, id: nat)
    requires NotResting(x.resting, id) && NotSubmitted(inputs, id)
    ensures FillsOf(Run(x, inputs).1, id) == []
    decreases |inputs|
  {
    if inputs != [] {
      var (x1, r1) := Apply(x, inputs[0]);
      if inputs[0].PriceUpdate? {
        var p := inputs[0].price;
        SelectMembers(x.resting, p - SPREAD / 2.0, p + SPREAD / 2.0, true);
        SelectMembers(x.resting, p - SPREAD / 2.0, p + SPREAD / 2.0, false);
        var filled := Select(x.resting, p - SPREAD / 2.0, p + SPREAD / 2.0, true);
        forall i | 0 <= i < |r1| ensures r1[i].orderId != id {
          assert filled[i] in filled;
        }
      }
      NoFills(r1, id);
      assert NotSubmitted(inputs[1..], id);
      AbsentNeverFills(x1, inputs[1..], id);
      FillsOfAppend(r1, Run(x1, inputs[1..]).1, id);
    }
  }

  ghost predicate SingleFill(fs: seq<Report>, o: Order, price: real) {
    |fs| == 1 &&
    fs[0] == Report(o.id, o.strategy, fs[0].tradeId, o.side, price, o.quantity, o.quantity, 0.0, Filled)
  }

  ghost predicate FillsAs(fs: seq<Report>, o: Order, fate: Option<real>) {
    match fate
    case None => fs == []
    case Some(p) => SingleFill(fs, o, p)
  }

  lemma SelectSplit(pre: seq<Order>, o: Order, post: seq<Order>, bid: real, ask: real, crossing: bool)
    ensures Select(pre + [o] + post, bid, ask, crossing) ==
            Select(pre, bid, ask, crossing) + (if Crosses(o, bid, ask) == crossing then [o] else []) +
            Select(post, bid, ask, crossing)
  {
    SelectAppend(pre + [o], post, bid, ask, crossing);
    SelectAppend(pre, [o], bid, ask, crossing);
    assert [o][..0] == [];
  }

  lemma OneFill(rs: seq<Report>, n: nat, id: nat)
    requires n < |rs| && rs[n].orderId == id && rs[n].status.Filled?
    requires forall i :: 0 <= i < |rs| && i != n ==> rs[i].orderId != id
    ensures FillsOf(rs, id) == [rs[n]]
  {
    assert rs == rs[..n] + rs[n..];
    FillsOfAppend(rs[..n], rs[n..], id);
    NoFills(rs[..n], id);
    NoFills(rs[n..][1..], id);
  }

  lemma FillsOfOneOrder(before: seq<Order>, o: Order, after: seq<Order>, bid: real, ask: real, tradeId: nat)
    requires NotResting(before, o.id) && NotResting(after, o.id)
    ensures SingleFill(FillsOf(Fills(before + [o] + after, bid, ask, tradeId), o.id), o, Touch(o.side, bid, ask))
  {
    var os := before + [o] + after;
    var rs := Fills(os, bid, ask, tradeId);
    forall i | 0 <= i < |rs| && i != |before| ensures rs[i].orderId != o.id {
      assert if i < |before| then os[i] in before else os[i] in after;
    }
    OneFill(rs, |before|, o.id);
  }

  lemma FillsOfOthers(os: seq<Order>, id: nat, bid: real, ask: real, tradeId: nat)
    requires NotResting(os, id)
    ensures FillsOf(Fills(os, bid, ask, tradeId), id) == []
  {
    var rs := Fills(os, bid, ask, tradeId);
    forall i | 0 <= i < |rs| ensures rs[i].orderId != id {
      assert os[i] in os;
    }
    NoFills(rs, id);
  }

  lemma SelectKeepsAbsent(rs: seq<Order>, id: nat, bid: real, ask: real, crossing: bool)
    requires NotResting(rs, id)
    ensures NotResting(Select(rs, bid, ask, crossing), id)
  {
    SelectMembers(rs, bid, ask, crossing);
  }

  lemma TickWithResting(pre: seq<Order>, o: Order, post: seq<Order>, x: Exchange, price: real)
    requires x.resting == pre + [o] + post && NotResting(pre, o.id) && NotResting(post, o.id)
    ensures var bid, ask := price - SPREAD / 2.0, price + SPREAD / 2.0;
            var (x1, r1) := OnTick(x, price);
            var pre', post' := Select(pre, bid, ask, false), Select(post, bid, ask, false);
            NotResting(pre', o.id) && NotResting(post', o.id) &&
            if Crosses(o, bid, ask) then
              SingleFill(FillsOf(r1, o.id), o, Touch(o.side, bid, ask)) && x1.resting == pre' + post'
            else
              FillsOf(r1, o.id) == [] && x1.resting == pre' + [o] + post'
  {
    hide FillsOf, Fills, Select, Execution;
    var bid, ask := price - SPREAD / 2.0, price + SPREAD / 2.0;
    SelectSplit(pre, o, post, bid, ask, false);
    SelectSplit(pre, o, post, bid, ask, true);
    SelectKeepsAbsent(pre, o.id, bid, ask, false);
    SelectKeepsAbsent(post, o.id, bid, ask, false);
    SelectKeepsAbsent(pre, o.id, bid, ask, true);
    SelectKeepsAbsent(post, o.id, bid, ask, true);
    var before, after := Select(pre, bid, ask, true), Select(post, bid, ask, true);
    if Crosses(o, bid, ask) {
      FillsOfOneOrder(before, o, after, bid, ask, x.nextTradeId);
    } else {
      assert before + [] + after == before + after;
      FillsOfOthers(before + after, o.id, bid, ask, x.nextTradeId);
    }
  }

  ghost predicate FateHolds(x: Exchange, inputs: seq<Input>, o: Order) {
    FillsAs(FillsOf(Run(x, inputs).1, o.id), o, FirstCross(o.side, o.price, Prices(inputs)))
  }

  /** The first input taken off a run. */
  lemma FateUnfolds(x: Exchange, inputs: seq<Input>, o: Order)
    requires inputs != [] && NotSubmitted(inputs, o.id)
    ensures var (x1, r1) := Apply(x, inputs[0]);
            NotSubmitted(inputs[1..], o.id) &&
            FillsOf(Run(x, inputs).1, o.id) == FillsOf(r1, o.id) + FillsOf(Run(x1, inputs[1..]).1, o.id)
    ensures Prices(inputs) == (if inputs[0].PriceUpdate? then [inputs[0].price] else []) + Prices(inputs[1..])
    ensures !inputs[0].PriceUpdate? ==>
            FillsOf(Apply(x, inputs[0]).1, o.id) == [] && Prices(inputs) == Prices(inputs[1..])
  {
    var (x1, r1) := Apply(x, inputs[0]);
    FillsOfAppend(r1, Run(x1, inputs[1..]).1, o.id);
    if !inputs[0].PriceUpdate? {
      NoFills(r1, o.id);
    }
  }

  /** Once resting, an order fills at the first tick that crosses its limit and never again. */
  lemma {:induction false} RestingFate(x: Exchange, inputs: seq<Input>, pre: seq<Order>, o: Order, post: seq<Order>)
    requires x.resting == pre + [o] + post && NotResting(pre, o.id) && NotResting(post, o.id)
    requires NotSubmitted(inputs, o.id)
    ensures FateHolds(x, inputs, o)
    decreases |inputs|, 1
  {
    if inputs != [] {
      if inputs[0].PriceUpdate? {
        RestingFateAtTick(x, inputs, pre, o, post);
      } else {
        FateUnfolds(x, inputs, o);
        var x1 := Apply(x, inputs[0]).0;
        var post' := x1.resting[|pre| + 1..];
        assert x1.resting == pre + [o] + post';
        assert post' == post || post' == post + [inputs[0].order];
        RestingFate(x1, inputs[1..], pre, o, post');
        assert [] + FillsOf(Run(x1, inputs[1..]).1, o.id) == FillsOf(Run(x1, inputs[1..]).1, o.id);
      }
    }
  }

  lemma {:induction false} RestingFateAtTick(
      x: Exchange, inputs: seq<Input>, pre: seq<Order>, o: Order, post: seq<Order>)
    requires x.resting == pre + [o] + post && NotResting(pre, o.id) && NotResting(post, o.id)
    requires inputs != [] && inputs[0].PriceUpdate? && NotSubmitted(inputs, o.id)
    ensures FateHolds(x, inputs, o)
    decreases |inputs|, 0
  {
    var p := inputs[0].price;
    var (x1, r1) := OnTick(x, p);
    var bid, ask := p - SPREAD / 2.0, p + SPREAD / 2.0;
    var later := FillsOf(Run(x1, inputs[1..]).1, o.id);
    FateUnfolds(x, inputs, o);
    TickWithResting(pre, o, post, x, p);
    assert Prices(inputs)[0] == p && Prices(inputs)[1..] == Prices(inputs[1..]);
    hide Run, FillsOf, Prices, Select, Fills, SingleFill;
    if Crosses(o, bid, ask) {
      AbsentNeverFills(x1, inputs[1..], o.id);
      assert FillsOf(r1, o.id) + later == FillsOf(r1, o.id);
    } else {
      RestingFate(x1, inputs[1..], Select(pre, bid, ask, false), o, Select(post, bid, ask, false));
      assert FillsOf(r1, o.id) + later == later;
    }
  }

  /** A limit order with a fresh id, whatever else is submitted or cancelled (itself included)
      after it: it trades at most once, in full, when and where its side and limit and the
      price stream alone say. */
  lemma LimitOrderFate(x: Exchange, o: Order, inputs: seq<Input>)
    requires o.kind.Limit? && NotResting(x.resting, o.id) && NotSubmitted(inputs, o.id)
    ensures FillsAs(FillsOf(Run(x, [Submit(o)] + inputs).1, o.id), o,
                    Fate(o.side, o.price, x.bestBid, x.bestAsk, Prices(inputs)))
  {
    var (x1, r) := Process(x, o);
    assert ([Submit(o)] + inputs)[1..] == inputs;
    FillsOfAppend([r], Run(x1, inputs).1, o.id);
    assert FillsOf([r], o.id) == (if r.status.Filled? then [r] else []) by {
      assert [r][1..] == [];
    }
    if r.status.Filled? {
      AbsentNeverFills(x1, inputs, o.id);
    } else {
      RestingFate(x1, inputs, x.resting, o, []);
    }
  }

  /** No fill is worse than the limit. */
  lemma {:induction false} FateRespectsLimit(side: Side, limit: real, bid: real, ask: real, later: seq<real>)
    ensures var fate := Fate(side, limit, bid, ask, later);
            fate.Some? ==> if side.Buy? then fate.value <= limit else fate.value >= limit
  {
    FirstCrossRespectsLimit(side, limit, later);
  }

  lemma {:induction false} FirstCrossRespectsLimit(side: Side, limit: real, prices: seq<real>)
    ensures var p := FirstCross(side, limit, prices);
            p.Some? ==> if side.Buy? then p.value <= limit else p.value >= limit
  {
    if prices != [] {
      FirstCrossRespectsLimit(side, limit, prices[1..]);
    }
  }

  /** A cancelled order is still there: it is reported as resting, then as cancelled, and then it
      fills at the next tick below its limit. */
  lemma CancelledOrderStillFills(o: Order)
    requires o.kind.Limit? && o.side.Buy? && o.price > 1.0
    ensures var reports := Run(NEW_EXCHANGE, [Submit(o), CancelRequest(o.id), PriceUpdate(o.price - 1.0)]).1;
            reports == [Report(o.id, o.strategy, 1, Buy, o.price, 0.0, 0.0, o.quantity, New),
                        Report(o.id, 0, 2, Buy, 0.0, 0.0, 0.0, 0.0, Cancelled),
                        Report(o.id, o.strategy, 3, Buy, o.price - 0.75, o.quantity, o.quantity, 0.0, Filled)]
  {
    var inputs := [Submit(o), CancelRequest(o.id), PriceUpdate(o.price - 1.0)];
    var x1 := Exchange(0.0, 0.0, 2, [o]);
    var x2 := Exchange(0.0, 0.0, 3, [o]);
    assert [] + [o] == [o];
    assert Apply(NEW_EXCHANGE, inputs[0]) == (x1, [Execution(o, o.price, 0.0, New, 1)]);
    assert Apply(x1, inputs[1]) == (x2, [Cancel(NEW_EXCHANGE.(nextTradeId := 2), o.id).1]);
    assert Apply(x2, inputs[2]).1 == [Fill(o, o.price - 1.0 + SPREAD / 2.0, 3)] by {
      OnlyOneCrosses(o, o.price - 1.0 - SPREAD / 2.0, o.price - 1.0 + SPREAD / 2.0);
    }
    hide Apply, Execution, Cancel;
    RunThree(NEW_EXCHANGE, inputs[0], inputs[1], inputs[2]);
  }

  lemma RunThree(x: Exchange, a: Input, b: Input, c: Input)
    ensures var (x1, r1) := Apply(x, a);
            var (x2, r2) := Apply(x1, b);
            Run(x, [a, b, c]).1 == r1 + r2 + Apply(x2, c).1
  {
    hide Apply;
    var (x1, r1) := Apply(x, a);
    var (x2, r2) := Apply(x1, b);
    var r3 := Apply(x2, c).1;
    assert [a, b, c][1..] == [b, c] && [b, c][1..] == [c] && [c][1..] == [];
    assert Run(x2, [c]).1 == r3 + [] == r3;
    assert Run(x1, [b, c]).1 == r2 + r3;
    assert r1 + r2 + r3 == r1 + (r2 + r3);
  }

  lemma OnlyOneCrosses(o: Order, bid: real, ask: real)
    requires Crosses(o, bid, ask)
    ensures Select([o], bid, ask, true) == [o]
  {
    assert [o][..0] == [];
  }

  /** Every input that is answered uses up one trade id per report, in order. */
  lemma {:induction false} TradeIdsAreConsecutive(x: Exchange, inputs: seq<Input>)
    ensures var (x', reports) := Run(x, inputs);
            x'.nextTradeId == x.nextTradeId + |reports| &&
            forall i :: 0 <= i < |reports| ==> reports[i].tradeId == x.nextTradeId + i
    decreases |inputs|
  {
    if inputs != [] {
      var (x1, r1) := Apply(x, inputs[0]);
      assert x1.nextTradeId == x.nextTradeId + |r1|;
      assert forall i :: 0 <= i < |r1| ==> r1[i].tradeId == x.nextTradeId + i;
      hide Apply;
      TradeIdsAreConsecutive(x1, inputs[1..]);
    }
  }

  /** A market order fills whole at the touch, or is refused if the touch is not positive; it never rests. */
  lemma MarketOrderFate(x: Exchange, o: Order)
    requires o.kind.Market?
    ensures var price := if o.side.Buy? then x.bestAsk else x.bestBid;
            var (x', reports) := Run(x, [Submit(o)]);
            x'.resting == x.resting && |reports| == 1 &&
            reports[0] ==
              if price > 0.0 then
                Report(o.id, o.strategy, x.nextTradeId, o.side, price, o.quantity, o.quantity, 0.0, Filled)
              else Report(o.id, o.strategy, x.nextTradeId, o.side, 0.0, 0.0, 0.0, o.quantity, Rejected)
  {
    assert [Submit(o)][1..] == [];
    assert Apply(x, Submit(o)).1 + [] == Apply(x, Submit(o)).1;
  }

  // No resting order is marketable

  ghost predicate Uncrossed(x: Exchange) {
    && (x.bestBid == 0.0 == x.bestAsk || x.bestAsk - x.bestBid == 0.5)
    && (forall o :: o in x.resting && o.side.Buy? && x.bestAsk > 0.0 ==> o.price < x.bestAsk)
    && (forall o :: o in x.resting && o.side.Sell? && x.bestBid > 0.0 ==> o.price > x.bestBid)
  }

  lemma ApplyKeepsUncrossed(x: Exchange, i: Input)
    requires Uncrossed(x)
    ensures Uncrossed(Apply(x, i).0)
  {
    if i.PriceUpdate? {
      SelectMembers(x.resting, i.price - SPREAD / 2.0, i.price + SPREAD / 2.0, false);
    }
  }

  /** In every reachable state no resting buy reaches a positive best ask and no resting sell a
      positive best bid. */
  lemma {:induction false} RunsStayUncrossed(x: Exchange, inputs: seq<Input>)
    requires Uncrossed(x)
    ensures Uncrossed(Run(x, inputs).0)
    decreases |inputs|
  {
    if inputs != [] {
      ApplyKeepsUncrossed(x, inputs[0]);
      RunsStayUncrossed(Apply(x, inputs[0]).0, inputs[1..]);
    }
  }

  /** So resting buys and sells overlap by less than the spread once the best bid is positive. */
  lemma OverlapBelowSpread(inputs: seq<Input>, b: Order, s: Order)
    requires var x := Run(NEW_EXCHANGE, inputs).0;
             x.bestBid > 0.0 && b in x.resting && s in x.resting && b.side.Buy? && s.side.Sell?
    ensures b.price - s.price < 0.5
  {
    RunsStayUncrossed(NEW_EXCHANGE, inputs);
  }
}
