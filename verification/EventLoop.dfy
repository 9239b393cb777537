/**
 The processor loop (main.cpp): every component of the trading path, driven by the events of
 one queue, which are taken off it up to four at a time. `System` is the state of the components;
 `Loop` adds the queue and the part of the batch still to be handled. A step of the loop fills the
 empty batch or handles the next event in it, so a run of steps passes through every moment of a
 run of the program, the ones in the middle of a batch included.

 What the market maker reads from the order book and from the clock is an input of each step, so
 the theorems hold for any book, including the empty one of main.cpp, which never feeds the book.
 */
module EventLoops {
  import opened Events
  import opened EventQueues
  import MM = MarketMakers
  import MO = Momentums
  import EX = MatchingEngines
  import OM = OrderManagers
  import RE = RiskEngines
  import PE = PnLEngines

  datatype Env = Env(top: Option<MM.TopOfBook>, elapsed: bool)

  /** History: the orders the order manager accepted and the reports the loop handled. */
  datatype Log = Log(accepted: seq<Order>, reports: seq<Report>)

  datatype System = System(
    maker: MM.MarketMaker, momentum: MO.Momentum, exchange: EX.Exchange,
    active: map<nat, Order>, risk: RE.Risk, pnl: PE.PnL,
    history: seq<Report>, log: Log)

  /** `batch` holds the events taken off the queue and not yet handled, `handled` those that were. */
  datatype Loop = Loop(sys: System, queue: Queue, batch: seq<Event>, handled: seq<Event>)

  const HISTORY: nat := 1000

  /** `trade_history` holds the last 1000 fills. */
  function Remember(history: seq<Report>, r: Report): seq<Report> {
    var h := history + [r];
    if |h| > HISTORY then h[1..] else h
  }

  /** What the two strategies do on a tick. */
  ghost function StrategiesOnTick(c: System, price: real, env: Env): (MM.MarketMaker, MO.Momentum, seq<Event>) {
    var (maker, quotes) := MM.OnBook(c.maker.(position := PE.TotalPosition(c.pnl.stats)), env.top, env.elapsed);
    var (momentum, orders) := MO.OnPrice(c.momentum, price);
    (maker, momentum, quotes + MO.Requests(orders))
  }

  ghost function ReactToTick(c: System, price: real, env: Env): (System, seq<Event>) {
    var (maker, momentum, sent) := StrategiesOnTick(c, price, env);
    var (exchange, fills) := EX.OnTick(c.exchange, price);
    (c.(maker := maker, momentum := momentum, exchange := exchange), sent + EX.AsEvents(fills))
  }

  function ReactToRequest(c: System, o: Order): (System, seq<Event>) {
    var (active, out) := OM.OnRequest(c.active, c.risk, o);
    var accepted := if OM.Validates(c.risk, o) then c.log.accepted + [o] else c.log.accepted;
    (c.(active := active, log := c.log.(accepted := accepted)), out)
  }

  function ReactToOrder(c: System, o: Order): (System, seq<Event>) {
    var (exchange, r) := EX.Process(c.exchange, o);
    (c.(exchange := exchange), [ExecutionReport(r)])
  }

  function ReactToCancel(c: System, id: nat): (System, seq<Event>) {
    var (exchange, r) := EX.Cancel(c.exchange, id);
    (c.(exchange := exchange), [ExecutionReport(r)])
  }

  ghost function ReactToReport(c: System, r: Report): System {
    var c1 := c.(active := OM.OnReport(c.active, r), log := c.log.(reports := c.log.reports + [r]));
    if r.status.Filled? then
      c1.(pnl := PE.Mark(PE.OnFill(c.pnl, r.strategy, r.side, r.lastPrice, r.lastQty), r.lastPrice),
          risk := RE.Moved(c.risk, SignedQty(r.side, r.lastQty)),
          history := Remember(c.history, r))
    else
      c1.(pnl := PE.Mark(c.pnl, r.lastPrice))
  }

  /** One dispatched event: the components' new state and the events they push, in order. */
  ghost function React(c: System, e: Event, env: Env): (System, seq<Event>) {
    match e
    case MarketData(t) => ReactToTick(c, t.price, env)
    case OrderRequest(o) => ReactToRequest(c, o)
    case ValidatedOrder(o) => ReactToOrder(c, o)
    case CancelOrder(id) => ReactToCancel(c, id)
    case ExecutionReport(r) => (ReactToReport(c, r), [])
  }

  /** Handle one event; what the components push follows it through the queue. */
  ghost function Handle(s: Loop, e: Event, env: Env): Loop {
    var (c, out) := React(s.sys, e, env);
    s.(sys := c, queue := AfterPushes(s.queue, out), handled := s.handled + [e])
  }

  const BATCH: nat := 4

  /** Pop until `n` events were found or the queue was found empty. */
  function PopUpTo(q: Queue, n: nat): (r: (seq<Event>, Queue))
    ensures |r.0| <= n
  {
    if n == 0 then ([], q)
    else
      var (es, q1) := PopUpTo(q, n - 1);
      if |es| < n - 1 then (es, q1)
      else
        var (e, q2) := AfterPop(q1);
        if e.None? then (es, q2) else (es + [e.value], q2)
  }

  /** Fill the batch. */
  function Fill(s: Loop): Loop {
    var (es, q) := PopUpTo(s.queue, BATCH);
    s.(queue := q, batch := es)
  }

  /** The next step of the loop: fill the batch when nothing is left in it, handle its next event
      otherwise. */
  ghost function Step(s: Loop, env: Env): Loop {
    if s.batch == [] then Fill(s) else Handle(s.(batch := s.batch[1..]), s.batch[0], env)
  }

  ghost function Run(s: Loop, envs: seq<Env>): Loop {
    if envs == [] then s else Step(Run(s, envs[..|envs| - 1]), envs[|envs| - 1])
  }

  /** One turn of `while (running)`: fill the batch and handle all of it. */
  ghost function AfterTurn(s: Loop, envs: seq<Env>): Loop
    requires |envs| >= BATCH
  {
    Run(Fill(s), envs[..|Fill(s).batch|])
  }

  ghost function AfterTurns(s: Loop, turns: seq<seq<Env>>): Loop
    requires forall t :: t in turns ==> |t| >= BATCH
  {
    if turns == [] then s else AfterTurn(AfterTurns(s, turns[..|turns| - 1]), turns[|turns| - 1])
  }

  function Start(capacity: nat, feed: seq<seq<Tick>>, maxPosition: real): Loop {
    var sys := System(MM.NEW_MAKER, MO.NEW_MOMENTUM, EX.NEW_EXCHANGE, map[], RE.Risk(0.0, maxPosition), PE.NEW_PNL,
                      [], Log([], []));
    Loop(sys, Queue([], capacity, feed, 0, 0, 0), [], [])
  }

  class EventLoop {
    const queue: EventQueue
    const maker: MM.MarketMakerStrategy
    const momentum: MO.MomentumStrategy
    const risk: RE.RiskEngine
    const pnl: PE.PnLEngine
    const orders: OM.OrderManager
    const exchange: EX.MatchingEngine
    const batch: array<Option<Event>>
    var history: seq<Report>
    ghost var log: Log
    ghost var handled: seq<Event>

    /** All components push to the same queue and the order manager asks this risk engine. */
    ghost predicate Wired() {
      && maker.queue == queue && momentum.queue == queue && exchange.queue == queue
      && orders.queue == queue && orders.risk == risk
      && batch.Length == BATCH
    }

    ghost function Parts(): set<object> {
      {queue, maker, momentum, risk, pnl, orders, exchange}
    }

    ghost function Components(): System
      reads `history, `log, Parts()
    {
      System(maker.View(), momentum.View(), exchange.View(), orders.active, risk.View(), pnl.View(), history, log)
    }

    /** Between turns nothing in the batch waits to be handled. */
    ghost function View(): Loop
      reads this, Parts()
    {
      Loop(Components(), queue.View(), [], handled)
    }

    constructor (capacity: nat, feed: seq<seq<Tick>>, maxPosition: real)
      ensures Wired() && View() == Start(capacity, feed, maxPosition)
      ensures fresh(queue) && fresh(maker) && fresh(momentum) && fresh(risk) && fresh(pnl) && fresh(orders)
      ensures fresh(exchange) && fresh(batch)
    {
      var q := new EventQueue(capacity, feed);
      var r := new RE.RiskEngine(maxPosition);
      queue, risk := q, r;
      maker := new MM.MarketMakerStrategy(q);
      momentum := new MO.MomentumStrategy(q);
      pnl := new PE.PnLEngine();
      orders := new OM.OrderManager(q, r);
      exchange := new EX.MatchingEngine(q);
      batch := new Option<Event>[BATCH](_ => None);
      history, log, handled := [], Log([], []), [];
      new;
      assert queue.View() == Queue([], capacity, feed, 0, 0, 0) && risk.View() == RE.Risk(0.0, maxPosition);
      assert maker.View() == MM.NEW_MAKER && momentum.View() == MO.NEW_MOMENTUM;
      assert exchange.View() == EX.NEW_EXCHANGE && pnl.View() == PE.NEW_PNL;
      assert Components() == Start(capacity, feed, maxPosition).sys;
    }

    method OnMarketData(price: real, env: Env)
      requires Wired()
      modifies queue, maker, momentum, exchange
      ensures Components() == ReactToTick(old(Components()), price, env).0
      ensures queue.View() == AfterPushes(old(queue.View()), ReactToTick(old(Components()), price, env).1)
    {
      ghost var c, q := Components(), queue.View();
      ghost var sent, fills := StrategiesOnTick(c, price, env).2, EX.AsEvents(EX.OnTick(c.exchange, price).1);
      hide EX.OnTick, AfterPushes, StrategiesOnTick;
      RunStrategies(price, env);
      exchange.UpdateMarketPrice(price);
      PushesAppend(q, sent, fills);
    }

    method RunStrategies(price: real, env: Env)
      requires Wired()
      modifies queue, maker, momentum
      ensures Components() ==
              (var (maker', momentum', _) := StrategiesOnTick(old(Components()), price, env);
               old(Components()).(maker := maker', momentum := momentum'))
      ensures queue.View() == AfterPushes(old(queue.View()), StrategiesOnTick(old(Components()), price, env).2)
    {
      var position := pnl.GetTotalPosition();
      ghost var c, q := Components(), queue.View();
      ghost var quotes := MM.OnBook(c.maker.(position := position), env.top, env.elapsed).1;
      ghost var requests := MO.Requests(MO.OnPrice(c.momentum, price).1);
      hide MM.OnBook, MO.OnPrice, AfterPushes, PE.TotalPosition;
      maker.UpdatePosition(position);
      maker.OnMarketData(env.top, env.elapsed);
      momentum.OnMarketData(price);
      PushesAppend(q, quotes, requests);
    }

    method OnExecutionReport(r: Report)
      requires Wired()
      modifies this, orders, pnl, risk
      ensures Components() == ReactToReport(old(Components()), r)
      ensures handled == old(handled)
    {
      hide PE.Mark, PE.OnFill, OM.OnReport, Remember;
      orders.HandleExecutionReport(r);
      if r.status.Filled? {
        pnl.Fill(r.strategy, r.side, r.lastPrice, r.lastQty);
        risk.UpdatePosition(SignedQty(r.side, r.lastQty));
      }
      pnl.UpdatePnl(r.lastPrice);
      if r.status.Filled? {
        RememberFill(r);
      }
      log := log.(reports := log.reports + [r]);
    }

    method RememberFill(r: Report)
      modifies `history
      ensures history == Remember(old(history), r)
    {
      history := history + [r];
      if |history| > HISTORY {
        history := history[1..];
      }
    }

    method OnOrderRequest(o: Order)
      requires Wired()
      modifies `log, orders, queue
      ensures Components() == ReactToRequest(old(Components()), o).0
      ensures queue.View() == AfterPushes(old(queue.View()), ReactToRequest(old(Components()), o).1)
    {
      hide AfterPushes;
      orders.HandleOrderRequest(o);
      log := log.(accepted := if OM.Validates(risk.View(), o) then log.accepted + [o] else log.accepted);
    }

    method OnValidatedOrder(o: Order)
      requires Wired()
      modifies exchange, queue
      ensures Components() == ReactToOrder(old(Components()), o).0
      ensures queue.View() == AfterPushes(old(queue.View()), ReactToOrder(old(Components()), o).1)
    {
      OnePush(queue.View(), ExecutionReport(EX.Process(exchange.View(), o).1));
      hide AfterPush, AfterPushes, EX.Process;
      exchange.ProcessOrder(o);
    }

    method OnCancelOrder(id: nat)
      requires Wired()
      modifies exchange, queue
      ensures Components() == ReactToCancel(old(Components()), id).0
      ensures queue.View() == AfterPushes(old(queue.View()), ReactToCancel(old(Components()), id).1)
    {
      OnePush(queue.View(), ExecutionReport(EX.Cancel(exchange.View(), id).1));
      hide AfterPush, AfterPushes, EX.Cancel;
      exchange.CancelOrder(id);
    }

    /** The `switch` of the processor loop. */
    method Dispatch(e: Event, env: Env)
      requires Wired()
      modifies this, Parts()
      ensures View() == Handle(old(View()), e, env)
    {
      hide ReactToTick, ReactToRequest, ReactToOrder, ReactToCancel, ReactToReport, AfterPush;
      handled := handled + [e];
      assert Components() == old(Components()) && queue.View() == old(queue.View());
      match e
      case MarketData(t) => OnMarketData(t.price, env);
      case OrderRequest(o) => OnOrderRequest(o);
      case ValidatedOrder(o) => OnValidatedOrder(o);
      case CancelOrder(id) => OnCancelOrder(id);
      case ExecutionReport(r) => OnExecutionReport(r);
    }

    /** One turn of `while (running)`. Slots of `batch` beyond the events found keep what earlier
        turns left there; they are not looked at. */
    method Turn(envs: seq<Env>)
      requires Wired() && |envs| >= BATCH
      modifies this, Parts(), batch
      ensures View() == AfterTurn(old(View()), envs)
    {
      ghost var s := Fill(View());
      ghost var es := s.batch;
      var found := FillBatch();
      ghost var slots := batch[..];
      ghost var slotArray: object := batch;
      assert slotArray !in Parts();
      hide Fill, Handle, PopUpTo, Components, Parts;
      var i := 0;
      while i < found
        invariant i <= found == |es|
        invariant batch[..] == slots
        invariant View().(batch := es[i..]) == Run(s, envs[..i])
      {
        ghost var before := View();
        assert batch[i] == slots[i];
        Dispatch(batch[i].value, envs[i]);
        HandleInBatch(s, before, es, envs, i);
        i := i + 1;
      }
      assert es[i..] == [];
    }

    method FillBatch() returns (found: nat)
      requires Wired()
      modifies queue, batch
      ensures (var (es, q) := PopUpTo(old(queue.View()), BATCH);
               queue.View() == q && Holds(batch[..], es) && found == |es| <= BATCH)
    {
      ghost var q, es := queue.View(), [];
      hide AfterPop;
      found := 0;
      var stop := false;
      while found < BATCH && !stop
        invariant found == |es| <= BATCH && Holds(batch[..], es)
        invariant !stop ==> PopUpTo(q, found) == (es, queue.View())
        invariant stop ==> found < BATCH && PopUpTo(q, found + 1) == (es, queue.View())
        decreases !stop, BATCH - found
      {
        ghost var slots := batch[..];
        var e := queue.Pop();
        batch[found] := e;
        assert batch[..] == slots[found := e];
        if e.Some? {
          OneMoreSlot(slots, es, e.value);
          es := es + [e.value];
          found := found + 1;
        } else {
          stop := true;
        }
      }
      EmptyPopIsLast(q, if stop then found + 1 else found);
    }
  }

  /** The events found are in the first slots. */
  ghost predicate Holds(slots: seq<Option<Event>>, es: seq<Event>) {
    |es| <= |slots| && forall k :: 0 <= k < |es| ==> slots[k] == Some(es[k])
  }

  lemma OneMoreSlot(slots: seq<Option<Event>>, es: seq<Event>, e: Event)
    requires Holds(slots, es) && |es| < |slots|
    ensures Holds(slots[|es| := Some(e)], es + [e])
  {
  }

  /** A turn of the dispatch loop is a step. */
  lemma HandleInBatch(s: Loop, before: Loop, es: seq<Event>, envs: seq<Env>, i: nat)
    requires i < |es| <= |envs| && before.(batch := es[i..]) == Run(s, envs[..i])
    ensures Handle(before, es[i], envs[i]).(batch := es[i + 1..]) == Run(s, envs[..i + 1])
  {
    hide React, AfterPushes;
    assert envs[..i + 1][..i] == envs[..i];
    assert es[i..][0] == es[i] && es[i..][1..] == es[i + 1..];
  }

  lemma OnePush(q: Queue, e: Event)
    ensures AfterPushes(q, [e]) == AfterPush(q, e)
  {
    assert [e][..0] == [];
  }

  lemma EmptyPopIsLast(q: Queue, n: nat)
    requires n <= BATCH && (n == BATCH || |PopUpTo(q, n).0| < n)
    ensures PopUpTo(q, BATCH) == PopUpTo(q, n)
    decreases BATCH - n
  {
    if n < BATCH {
      EmptyPopIsLast(q, n + 1);
    }
  }
}
