/**
 Nothing is traded that was not accepted: every fill that reaches the books is the complete fill
 of an order the order manager let through, at a price no worse than its limit. This holds with
 and without dropped events and cancellations.
 */
module LoopSafety {
  import opened Events
  import opened EventQueues
  import opened EventLoops
  import opened LoopSteps
  import LoopRisk
  import EX = MatchingEngines

  predicate WithinLimit(o: Order, price: real) {
    o.kind.Limit? ==> if o.side.Buy? then price <= o.price else price >= o.price
  }

  /** Field by field, what a report that is no cancellation says of its order: who sent it, on which
      side, and that all of it has traded within its limit, or none. */
  predicate Describes(r: Report, o: Order) {
    && r.orderId == o.id && r.strategy == o.strategy && r.side == o.side
    && match r.status
       case Filled =>
         r.lastQty == o.quantity && r.cumQty == o.quantity && r.leavesQty == 0.0 && WithinLimit(o, r.lastPrice)
       case New =>
         r.lastQty == 0.0 && r.cumQty == 0.0 && r.leavesQty == o.quantity && o.kind.Limit? && r.lastPrice == o.price
       case Rejected =>
         r.lastQty == 0.0 && r.cumQty == 0.0 && r.leavesQty == o.quantity && o.kind.Market? && r.lastPrice == 0.0
       case _ => false
  }

  /** A cancellation names an id and nothing else. */
  predicate BareCancellation(r: Report) {
    && r.status.Cancelled? && r.strategy == 0 && r.side.Buy?
    && r.lastPrice == 0.0 && r.lastQty == 0.0 && r.cumQty == 0.0 && r.leavesQty == 0.0
  }

  /** The report is a cancellation or describes one of these orders. */
  ghost predicate ReportBacked(r: Report, os: seq<Order>) {
    BareCancellation(r) || exists o :: o in os && Describes(r, o)
  }

  predicate WellFormed(o: Order) {
    o.quantity > 0.0 && (o.kind.Limit? ==> o.price > 0.0)
  }

  ghost predicate EventBacked(e: Event, os: seq<Order>) {
    match e
    case ValidatedOrder(o) => o in os
    case ExecutionReport(r) => ReportBacked(r, os)
    case _ => true
  }

  ghost predicate AllBacked(es: seq<Event>, os: seq<Order>) {
    forall e :: e in es ==> EventBacked(e, os)
  }

  ghost predicate SystemBacked(c: System) {
    var os := c.log.accepted;
    && (forall o :: o in os ==> WellFormed(o))
    && (forall o :: o in c.exchange.resting ==> o in os && o.kind.Limit?)
    && (forall r :: r in c.log.reports ==> ReportBacked(r, os))
  }

  lemma BackedByMore(e: Event, os: seq<Order>, more: seq<Order>)
    requires EventBacked(e, os) && os <= more
    ensures EventBacked(e, more)
  {
    if e.ExecutionReport? && !BareCancellation(e.report) {
      var o :| o in os && Describes(e.report, o);
      assert o in more;
    }
  }

  lemma StrategiesBacked(c: System, price: real, env: Env, os: seq<Order>)
    ensures AllBacked(StrategiesOnTick(c, price, env).2, os)
  {
    LoopRisk.StrategiesSend(c, price, env);
    hide StrategiesOnTick;
  }

  lemma SweepBacked(x: EX.Exchange, price: real, os: seq<Order>)
    requires forall o :: o in x.resting ==> o in os && o.kind.Limit?
    ensures var (x', fills) := EX.OnTick(x, price);
            AllBacked(EX.AsEvents(fills), os) && forall o :: o in x'.resting ==> o in os && o.kind.Limit?
  {
    var bid, ask := price - EX.SPREAD / 2.0, price + EX.SPREAD / 2.0;
    EX.SelectMembers(x.resting, bid, ask, true);
    EX.SelectMembers(x.resting, bid, ask, false);
    var filled := EX.Select(x.resting, bid, ask, true);
    assert forall o :: o in filled ==> o in os && o.kind.Limit? && EX.Crosses(o, bid, ask);
    hide EX.Select, Describes, EX.Fill;
    FillsBacked(filled, bid, ask, x.nextTradeId, os);
  }

  lemma FillsBacked(filled: seq<Order>, bid: real, ask: real, tradeId: nat, os: seq<Order>)
    requires forall o :: o in filled ==> o in os && o.kind.Limit? && EX.Crosses(o, bid, ask)
    ensures AllBacked(EX.AsEvents(EX.Fills(filled, bid, ask, tradeId)), os)
  {
    var fills := EX.Fills(filled, bid, ask, tradeId);
    hide EX.Fills;
    forall e | e in EX.AsEvents(fills) ensures EventBacked(e, os) {
      var i :| 0 <= i < |fills| && e == EX.AsEvents(fills)[i];
      var o := filled[i];
      assert o in filled;
      assert Describes(fills[i], o);
    }
  }

  lemma ProcessBacked(x: EX.Exchange, o: Order, os: seq<Order>)
    requires o in os
    ensures EventBacked(ExecutionReport(EX.Process(x, o).1), os)
  {
    assert Describes(EX.Process(x, o).1, o);
  }

  lemma ReactBacked(c: System, e: Event, env: Env)
    requires SystemBacked(c) && EventBacked(e, c.log.accepted)
    ensures var (c', out) := React(c, e, env);
            SystemBacked(c') && AllBacked(out, c'.log.accepted) && c.log.accepted <= c'.log.accepted
  {
    match e
    case MarketData(t) =>
      StrategiesBacked(c, t.price, env, c.log.accepted);
      SweepBacked(c.exchange, t.price, c.log.accepted);
      hide StrategiesOnTick, EX.OnTick;
    case OrderRequest(o) =>
      RequestBacked(c, o, env);
    case ValidatedOrder(o) =>
      ProcessBacked(c.exchange, o, c.log.accepted);
    case CancelOrder(id) =>
      assert BareCancellation(EX.Cancel(c.exchange, id).1);
    case ExecutionReport(r) =>
      hide EventLoops.PE.Mark, EventLoops.PE.OnFill;
  }

  lemma RequestBacked(c: System, o: Order, env: Env)
    requires SystemBacked(c)
    ensures var (c', out) := React(c, OrderRequest(o), env);
            SystemBacked(c') && AllBacked(out, c'.log.accepted) && c.log.accepted <= c'.log.accepted
  {
    var more := React(c, OrderRequest(o), env).0.log.accepted;
    forall r | r in c.log.reports ensures ReportBacked(r, more) {
      BackedByMore(ExecutionReport(r), c.log.accepted, more);
    }
    hide ReportBacked;
  }

  ghost predicate Backed(s: Loop) {
    SystemBacked(s.sys) && AllBacked(Underway(s), s.sys.log.accepted)
  }

  lemma TickBacked(e: Event, os: seq<Order>)
    ensures e.MarketData? ==> EventBacked(e, os)
  {
  }

  lemma StepKeepsBacked(s: Loop, env: Env)
    requires Backed(s)
    ensures Backed(Step(s, env))
  {
    var s' := Step(s, env);
    var os, more := s.sys.log.accepted, s'.sys.log.accepted;
    StepMembers(s, env);
    hide React, AfterPushes, PopUpTo, SystemBacked, EventBacked;
    if s.batch != [] {
      assert s.batch[0] in Underway(s);
      ReactBacked(s.sys, s.batch[0], env);
    }
    forall e | e in Underway(s') ensures EventBacked(e, more) {
      TickBacked(e, more);
      if e in Underway(s) {
        BackedByMore(e, os, more);
      }
    }
  }

  lemma {:induction false} RunKeepsBacked(capacity: nat, feed: seq<seq<Tick>>, maxPosition: real, envs: seq<Env>)
    ensures Backed(Run(Start(capacity, feed, maxPosition), envs))
  {
    if envs != [] {
      RunKeepsBacked(capacity, feed, maxPosition, envs[..|envs| - 1]);
      hide Step, Backed;
      StepKeepsBacked(Run(Start(capacity, feed, maxPosition), envs[..|envs| - 1]), envs[|envs| - 1]);
    }
  }

  /** Every fill ever applied is the complete fill of an accepted order, within its limit, and
      every accepted order has a positive quantity and, if it is a limit order, a positive price. */
  lemma OnlyAcceptedOrdersFill(capacity: nat, feed: seq<seq<Tick>>, maxPosition: real, envs: seq<Env>)
    ensures var log := Run(Start(capacity, feed, maxPosition), envs).sys.log;
            (forall r :: r in log.reports && r.status.Filled? ==>
               exists o :: o in log.accepted && Describes(r, o)) &&
            (forall o :: o in log.accepted ==> WellFormed(o))
  {
    RunKeepsBacked(capacity, feed, maxPosition, envs);
  }

  /** Every report handled or under way, at every moment, is a cancellation without content or is
      right, field by field, about an accepted order; so the quantity traded and the quantity left
      are always the order's. */
  lemma ReportsAreExact(capacity: nat, feed: seq<seq<Tick>>, maxPosition: real, envs: seq<Env>, r: Report)
    requires var s := Run(Start(capacity, feed, maxPosition), envs);
             r in s.sys.log.reports || ExecutionReport(r) in Underway(s)
    ensures var s := Run(Start(capacity, feed, maxPosition), envs);
            BareCancellation(r) ||
            exists o :: o in s.sys.log.accepted && Describes(r, o) && r.cumQty + r.leavesQty == o.quantity
  {
    var s := Run(Start(capacity, feed, maxPosition), envs);
    RunKeepsBacked(capacity, feed, maxPosition, envs);
    assert ReportBacked(r, s.sys.log.accepted) by {
      if r !in s.sys.log.reports {
        assert EventBacked(ExecutionReport(r), s.sys.log.accepted);
      }
    }
    if !BareCancellation(r) {
      var o :| o in s.sys.log.accepted && Describes(r, o);
      assert r.cumQty + r.leavesQty == o.quantity;
    }
  }
}
