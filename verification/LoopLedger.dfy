/**
 Books that balance end to end: what the order manager accepted is accounted for order by
 order, the risk engine and the profit-and-loss engine agree on the position, and total profit
 is the cash of the fills plus the position at the last mark.
 */
module LoopLedger {
  import opened Events
  import opened EventQueues
  import opened EventLoops
  import opened LoopMeasures
  import opened LoopDrains
  import opened LoopLifecycle
  import opened LoopRisk
  import opened MapSums
  import EX = MatchingEngines
  import OM = OrderManagers
  import PE = PnLEngines
  import PT = PnLTheory

  // Conservation of quantity

  function AcceptedQty(scope: Scope, os: seq<Order>): real {
    if os == [] then 0.0
    else
      var o := os[|os| - 1];
      AcceptedQty(scope, os[..|os| - 1]) + When(InScope(scope, o.strategy, o.side), o.quantity)
  }

  /** Quantity of the fills the loop has applied. */
  function AppliedQty(scope: Scope, rs: seq<Report>): real {
    if rs == [] then 0.0
    else AppliedQty(scope, rs[..|rs| - 1]) + ReportValue(Pending(scope), rs[|rs| - 1])
  }

  /** Quantity of the market orders the exchange turned away for lack of a price. */
  function RefusedQty(scope: Scope, rs: seq<Report>): real {
    if rs == [] then 0.0
    else RefusedQty(scope, rs[..|rs| - 1]) + ReportValue(Refused(scope), rs[|rs| - 1])
  }

  /** Accepted = queued for the exchange, resting or in a queued fill + in a queued rejection +
      rejected + applied. */
  ghost predicate Balanced(s: Loop, scope: Scope) {
    AcceptedQty(scope, s.sys.log.accepted) ==
    Sum(Pending(scope), s) + Sum(Refused(scope), s) +
    RefusedQty(scope, s.sys.log.reports) + AppliedQty(scope, s.sys.log.reports)
  }

  /** What has to change by the same amount when `e` is handled. */
  ghost predicate QuantitiesBalance(c: System, e: Event, env: Env, scope: Scope) {
    var c' := React(c, e, env).0;
    AcceptedQty(scope, c'.log.accepted) - AcceptedQty(scope, c.log.accepted) ==
    Gain(Pending(scope), c, e, env) + Gain(Refused(scope), c, e, env)
    + RefusedQty(scope, c'.log.reports) - RefusedQty(scope, c.log.reports)
    + AppliedQty(scope, c'.log.reports) - AppliedQty(scope, c.log.reports)
  }

  lemma QuantitiesAfterTick(c: System, t: Tick, env: Env, scope: Scope)
    ensures QuantitiesBalance(c, MarketData(t), env, scope)
  {
    var p, r := Pending(scope), Refused(scope);
    GainOfTick(p, c, t, env);
    GainOfTick(r, c, t, env);
    StrategiesSend(c, t.price, env);
    hide StrategiesOnTick, EX.OnTick, Gain, AcceptedQty, RefusedQty, AppliedQty;
    StrategiesAddNothing(p, StrategiesOnTick(c, t.price, env).2);
    StrategiesAddNothing(r, StrategiesOnTick(c, t.price, env).2);
  }

  lemma QuantitiesAfterRequest(c: System, o: Order, env: Env, scope: Scope)
    ensures QuantitiesBalance(c, OrderRequest(o), env, scope)
  {
    GainOfRequest(Pending(scope), c, o, env);
    GainOfRequest(Refused(scope), c, o, env);
    hide Gain, RefusedQty, AppliedQty, OM.Validates;
    assert (c.log.accepted + [o])[..|c.log.accepted|] == c.log.accepted;
  }

  lemma QuantitiesAfterOrder(c: System, o: Order, env: Env, scope: Scope)
    ensures QuantitiesBalance(c, ValidatedOrder(o), env, scope)
  {
    GainOfOrder(Pending(scope), c, o, env);
    GainOfOrder(Refused(scope), c, o, env);
    ProcessEffect(Pending(scope), c.exchange, o);
    ProcessEffect(Refused(scope), c.exchange, o);
    hide Gain, EX.Process, AcceptedQty, RefusedQty, AppliedQty;
  }

  lemma QuantitiesAfterReport(c: System, r: Report, env: Env, scope: Scope)
    ensures QuantitiesBalance(c, ExecutionReport(r), env, scope)
  {
    GainOfReport(Pending(scope), c, r, env);
    GainOfReport(Refused(scope), c, r, env);
    hide Gain, ReportValue, AcceptedQty, PE.Mark, PE.OnFill;
    assert (c.log.reports + [r])[..|c.log.reports|] == c.log.reports;
  }

  lemma QuantitiesAfterEvent(c: System, e: Event, env: Env, scope: Scope)
    ensures QuantitiesBalance(c, e, env, scope)
  {
    match e
    case MarketData(t) => QuantitiesAfterTick(c, t, env, scope);
    case OrderRequest(o) => QuantitiesAfterRequest(c, o, env, scope);
    case ValidatedOrder(o) => QuantitiesAfterOrder(c, o, env, scope);
    case CancelOrder(id) =>
      GainOfCancel(Pending(scope), c, id, env);
      GainOfCancel(Refused(scope), c, id, env);
      hide Gain;
    case ExecutionReport(r) => QuantitiesAfterReport(c, r, env, scope);
  }

  lemma BalanceStep(s: Loop, env: Env, scope: Scope)
    requires Basic(s) && Balanced(s, scope) && Step(s, env).queue.failed == s.queue.failed
    ensures Balanced(Step(s, env), scope)
  {
    StepKeepsBasic(s, env);
    StepEffect(Pending(scope), s, env);
    StepEffect(Refused(scope), s, env);
    hide React, AfterPushes, PopUpTo, Gain, Sum, Basic;
    if s.batch != [] {
      QuantitiesAfterEvent(s.sys, s.batch[0], env, scope);
    }
    hide AcceptedQty, RefusedQty, AppliedQty;
  }

  /** In a run without drops no quantity is lost or invented, for each side as a whole and for
      each strategy on each side. */
  lemma {:induction false} QuantityIsConserved(
      capacity: nat, feed: seq<seq<Tick>>, maxPosition: real, envs: seq<Env>, scope: Scope)
    requires Run(Start(capacity, feed, maxPosition), envs).queue.failed == 0
    ensures Balanced(Run(Start(capacity, feed, maxPosition), envs), scope)
  {
    if envs != [] {
      var n := |envs| - 1;
      var s := Run(Start(capacity, feed, maxPosition), envs[..n]);
      StepIsMonotone(s, envs[n]);
      hide Step, Balanced;
      QuantityIsConserved(capacity, feed, maxPosition, envs[..n], scope);
      WorkIsPaidFor(capacity, feed, maxPosition, envs[..n]);
      BalanceStep(s, envs[n], scope);
    }
  }

  // Positions and profit

  const LOT_SIZE := 0.1

  function TradeOf(r: Report): PT.Trade {
    PT.Trade(r.strategy, r.side, r.lastPrice, r.lastQty)
  }

  /** The fills among the handled reports. */
  function FillsIn(rs: seq<Report>): seq<PT.Trade> {
    if rs == [] then []
    else FillsIn(rs[..|rs| - 1]) + if rs[|rs| - 1].status.Filled? then [TradeOf(rs[|rs| - 1])] else []
  }

  /** What the handled reports did to the profit-and-loss engine: every report is a mark at its
      price, a fill is booked first. */
  function OpsOf(rs: seq<Report>): seq<PT.Op> {
    if rs == [] then []
    else
      var r := rs[|rs| - 1];
      OpsOf(rs[..|rs| - 1]) + (if r.status.Filled? then [PT.Deal(TradeOf(r))] else []) + [PT.MarkAt(r.lastPrice)]
  }

  ghost predicate FillsSized(rs: seq<Report>) {
    forall r :: r in rs && r.status.Filled? ==> Sized(r.lastQty)
  }

  ghost predicate BooksOk(s: Loop) {
    && Basic(s)
    && FillsSized(s.sys.log.reports)
    && s.sys.pnl == PT.Run(OpsOf(s.sys.log.reports))
    && s.sys.risk.position == PT.Net(FillsIn(s.sys.log.reports))
    && s.sys.history == LastFills(s.sys.log.reports)
  }

  /** The most recent fills, at most HISTORY of them. */
  function LastFills(rs: seq<Report>): seq<Report> {
    Last(FillReports(rs))
  }

  function FillReports(rs: seq<Report>): seq<Report> {
    if rs == [] then []
    else FillReports(rs[..|rs| - 1]) + if rs[|rs| - 1].status.Filled? then [rs[|rs| - 1]] else []
  }

  lemma HistoryStep(rs: seq<Report>, r: Report)
    ensures LastFills(rs + [r]) == if r.status.Filled? then Remember(LastFills(rs), r) else LastFills(rs)
  {
    var all := FillReports(rs);
    assert (rs + [r])[..|rs|] == rs;
    assert FillReports(rs + [r]) == if r.status.Filled? then all + [r] else all;
    hide FillReports;
    LastOfMore(all, r);
  }

  function Last(all: seq<Report>): seq<Report> {
    if |all| > HISTORY then all[|all| - HISTORY..] else all
  }

  lemma LastOfMore(all: seq<Report>, r: Report)
    ensures Last(all + [r]) == Remember(Last(all), r)
  {
    if |all| >= HISTORY {
      var cut := |all| - HISTORY;
      assert Last(all) == all[cut..];
      assert (all + [r])[cut + 1..] == (all[cut..] + [r])[1..];
    }
  }

  lemma ReplayStep(p: PE.PnL, rs: seq<Report>, r: Report)
    requires p == PT.Run(OpsOf(rs))
    ensures PT.Run(OpsOf(rs + [r])) ==
            PE.Mark(if r.status.Filled? then PE.OnFill(p, r.strategy, r.side, r.lastPrice, r.lastQty) else p,
                    r.lastPrice)
  {
    hide PE.Mark, PE.OnFill;
    assert (rs + [r])[..|rs|] == rs;
    var ops := OpsOf(rs);
    var booked := ops + if r.status.Filled? then [PT.Deal(TradeOf(r))] else [];
    assert OpsOf(rs + [r]) == booked + [PT.MarkAt(r.lastPrice)];
    assert (booked + [PT.MarkAt(r.lastPrice)])[..|booked|] == booked;
    if r.status.Filled? {
      assert booked[..|ops|] == ops;
    } else {
      assert booked == ops;
    }
  }

  lemma NetStep(rs: seq<Report>, r: Report)
    ensures PT.Net(FillsIn(rs + [r])) == PT.Net(FillsIn(rs)) + When(r.status.Filled?, SignedQty(r.side, r.lastQty))
  {
    assert (rs + [r])[..|rs|] == rs;
    var ts := FillsIn(rs);
    assert (ts + [TradeOf(r)])[..|ts|] == ts;
    assert ts + [] == ts;
  }

  lemma ReportKeepsBooks(c: System, r: Report)
    requires FillsSized(c.log.reports) && EventSized(ExecutionReport(r))
    requires c.pnl == PT.Run(OpsOf(c.log.reports)) && c.risk.position == PT.Net(FillsIn(c.log.reports))
    requires c.history == LastFills(c.log.reports)
    ensures var c' := ReactToReport(c, r);
            FillsSized(c'.log.reports) && c'.pnl == PT.Run(OpsOf(c'.log.reports)) &&
            c'.risk.position == PT.Net(FillsIn(c'.log.reports)) && c'.history == LastFills(c'.log.reports)
  {
    hide PE.Mark, PE.OnFill, PT.Run, OpsOf, PT.Net, FillsIn, LastFills, Remember, Sized;
    HistoryStep(c.log.reports, r);
    ReplayStep(c.pnl, c.log.reports, r);
    NetStep(c.log.reports, r);
  }

  lemma BooksStep(s: Loop, env: Env)
    requires BooksOk(s)
    ensures BooksOk(Step(s, env))
  {
    StepKeepsBasic(s, env);
    hide AfterPushes, PopUpTo, PT.Run, OpsOf, PT.Net, FillsIn, LastFills, FillsSized, Basic;
    if s.batch != [] {
      if s.batch[0].ExecutionReport? {
        ReportKeepsBooks(s.sys, s.batch[0].report);
      }
      hide ReactToReport, EX.OnTick, EX.Process, StrategiesOnTick;
    }
  }

  lemma {:induction false} RunKeepsBooks(capacity: nat, feed: seq<seq<Tick>>, maxPosition: real, envs: seq<Env>)
    ensures BooksOk(Run(Start(capacity, feed, maxPosition), envs))
  {
    if envs != [] {
      hide Step, BooksOk;
      RunKeepsBooks(capacity, feed, maxPosition, envs[..|envs| - 1]);
      BooksStep(Run(Start(capacity, feed, maxPosition), envs[..|envs| - 1]), envs[|envs| - 1]);
    }
  }

  lemma SizedOnGrid(qty: real)
    requires Sized(qty)
    ensures PT.OnGrid(qty, LOT_SIZE) && qty > 0.0
  {
    assert PT.Lots(1, LOT_SIZE) == 0.1 && PT.Lots(5, LOT_SIZE) == 0.5;
  }

  lemma {:induction false} FillsInLots(rs: seq<Report>)
    requires FillsSized(rs)
    ensures PT.InLots(FillsIn(rs), LOT_SIZE)
  {
    if rs != [] {
      var r := rs[|rs| - 1];
      assert r in rs;
      FillsInLots(rs[..|rs| - 1]);
      if r.status.Filled? {
        SizedOnGrid(r.lastQty);
      }
      hide PT.OnGrid;
    }
  }

  lemma {:induction false} TradesOfOps(rs: seq<Report>)
    ensures PT.Trades(OpsOf(rs)) == FillsIn(rs)
  {
    if rs != [] {
      var r := rs[|rs| - 1];
      var ops := OpsOf(rs[..|rs| - 1]);
      TradesOfOps(rs[..|rs| - 1]);
      var booked := ops + if r.status.Filled? then [PT.Deal(TradeOf(r))] else [];
      assert OpsOf(rs)[..|booked|] == booked;
      if r.status.Filled? {
        assert booked[..|ops|] == ops;
      } else {
        assert booked == ops;
      }
    }
  }

  /** After every step: the risk engine's position is the sum of the strategies' positions and
      the signed sum of all fills applied, strategy by strategy too. */
  lemma {:induction false} PositionsAgree(capacity: nat, feed: seq<seq<Tick>>, maxPosition: real, envs: seq<Env>)
    ensures var c := Run(Start(capacity, feed, maxPosition), envs).sys;
            var fills := FillsIn(c.log.reports);
            c.risk.position == PE.TotalPosition(c.pnl.stats) == PT.Net(fills) &&
            (forall k :: k in c.pnl.stats ==>
               c.pnl.stats[k].position == PT.Net(PT.TradesOf(fills, k)) &&
               PT.Ledger(c.pnl.stats[k]) == PT.Cash(PT.TradesOf(fills, k)))
  {
    var c := Run(Start(capacity, feed, maxPosition), envs).sys;
    RunKeepsBooks(capacity, feed, maxPosition, envs);
    var ops := OpsOf(c.log.reports);
    TradesOfOps(c.log.reports);
    FillsInLots(c.log.reports);
    PT.Totals(ops);
    PT.GridIsAllClean(FillsIn(c.log.reports), LOT_SIZE);
    forall k | k in c.pnl.stats
      ensures c.pnl.stats[k].position == PT.Net(PT.TradesOf(FillsIn(c.log.reports), k))
      ensures PT.Ledger(c.pnl.stats[k]) == PT.Cash(PT.TradesOf(FillsIn(c.log.reports), k))
    {
      PT.PerStrategy(ops, k);
    }
  }

  /** Total profit is always the cash of the fills plus the position at the price of the last
      report, whatever that report was (a cancellation marks at 0). */
  lemma {:induction false} ProfitIsCashPlusPosition(
      capacity: nat, feed: seq<seq<Tick>>, maxPosition: real, envs: seq<Env>)
    ensures var c := Run(Start(capacity, feed, maxPosition), envs).sys;
            var rs := c.log.reports;
            rs != [] ==>
              PE.TotalPnl(c.pnl.stats) == PT.Cash(FillsIn(rs)) + Times(PT.Net(FillsIn(rs)), rs[|rs| - 1].lastPrice)
  {
    var c := Run(Start(capacity, feed, maxPosition), envs).sys;
    var rs := c.log.reports;
    RunKeepsBooks(capacity, feed, maxPosition, envs);
    if rs != [] {
      var r, ops := rs[|rs| - 1], OpsOf(rs);
      var booked := ops[..|ops| - 1];
      assert ops[|ops| - 1] == PT.MarkAt(r.lastPrice);
      TradesOfOps(rs);
      FillsInLots(rs);
      assert PT.Trades(ops) == PT.Trades(booked);
      hide PE.Mark;
      PT.GridIsDustFree(booked, LOT_SIZE);
      PT.EquityIsCashPlusPosition(booked, r.lastPrice);
    }
  }

  /** The same strategy by strategy, with the number of fills that were against an open position and
      the price of the last report. */
  lemma {:induction false} ProfitPerStrategy(
      capacity: nat, feed: seq<seq<Tick>>, maxPosition: real, envs: seq<Env>, k: nat)
    requires k in Run(Start(capacity, feed, maxPosition), envs).sys.pnl.stats
    ensures var c := Run(Start(capacity, feed, maxPosition), envs).sys;
            var rs := c.log.reports;
            rs != [] && c.pnl.lastPrice == rs[|rs| - 1].lastPrice &&
            var s, mine := c.pnl.stats[k], PT.TradesOf(FillsIn(rs), k);
            s.realized + s.unrealized == PT.Cash(mine) + Times(PT.Net(mine), rs[|rs| - 1].lastPrice) &&
            s.trades == PT.Closings(mine)
  {
    var c := Run(Start(capacity, feed, maxPosition), envs).sys;
    var rs := c.log.reports;
    RunKeepsBooks(capacity, feed, maxPosition, envs);
    hide Run;
    if rs != [] {
      LastMark(rs);
      var ops, price := OpsOf(rs), rs[|rs| - 1].lastPrice;
      var booked := ops[..|ops| - 1];
      TradesOfOps(rs);
      FillsInLots(rs);
      hide PT.Run, OpsOf;
      PT.GridIsAllClean(FillsIn(rs), LOT_SIZE);
      PT.StatsAreOwnTrades(booked, k);
      PT.StatsAreOwnTrades(ops, k);
      PT.StrategyEquity(booked, price, k);
      PT.TradesAreClosings(PT.TradesOf(FillsIn(rs), k));
    }
  }

  lemma LastMark(rs: seq<Report>)
    requires rs != []
    ensures var ops := OpsOf(rs);
            ops != [] && PT.Trades(ops) == PT.Trades(ops[..|ops| - 1]) &&
            PT.Run(ops) == PE.Mark(PT.Run(ops[..|ops| - 1]), rs[|rs| - 1].lastPrice) &&
            PT.Run(ops).lastPrice == rs[|rs| - 1].lastPrice
  {
    var ops := OpsOf(rs);
    assert ops[|ops| - 1] == PT.MarkAt(rs[|rs| - 1].lastPrice);
  }

  /** `trade_history` is the last 1000 fills applied, in order. */
  lemma {:induction false} HistoryIsLastFills(capacity: nat, feed: seq<seq<Tick>>, maxPosition: real, envs: seq<Env>)
    ensures var c := Run(Start(capacity, feed, maxPosition), envs).sys;
            var fills := FillReports(c.log.reports);
            c.history == fills[if |fills| > 1000 then |fills| - 1000 else 0..]
  {
    RunKeepsBooks(capacity, feed, maxPosition, envs);
  }

  /** The reported drawdown is the largest drop of the equity marked over the whole run. */
  lemma {:induction false} DrawdownOfRun(capacity: nat, feed: seq<seq<Tick>>, maxPosition: real, envs: seq<Env>)
    ensures var c := Run(Start(capacity, feed, maxPosition), envs).sys;
            PT.IsMaxDrop(PT.EquityTrace(OpsOf(c.log.reports)), c.pnl.maxDrawdown)
  {
    RunKeepsBooks(capacity, feed, maxPosition, envs);
    PT.DrawdownIsMaxDrop(OpsOf(Run(Start(capacity, feed, maxPosition), envs).sys.log.reports));
  }
}
