/**
 One way of counting what is under way in the loop: each measure gives a value to every event in
 the batch or the queue and to every resting order. The lemmas say how a step of the loop changes
 the sum, for all measures at once.

 All measures are real-valued, those that count (work, requests, live orders) as well as those that
 add up quantities. With one type for both, one sum and one theorem about a step serve all seven, and
 a number of orders times a quantity is an ordinary product. Sums of histories that are compared with
 a measure (LoopLifecycle.Ended and Count, LoopFate.Submissions) have its type for that reason.
 */
module LoopMeasures {
  import opened Events
  import opened EventQueues
  import opened EventLoops
  import opened LoopSteps
  import EX = MatchingEngines
  import OM = OrderManagers

  datatype Scope = OnSide(side: Side) | OfStrategy(strategy: nat, side: Side)

  predicate InScope(scope: Scope, strategy: nat, side: Side) {
    side == scope.side && (scope.OfStrategy? ==> strategy == scope.strategy)
  }

  datatype Measure =
    | Weight                     // work still to be done
    | Requested(id: nat)         // 1 for a request with this id
    | Unsent(id: nat)            // 1 for a request or accepted order with this id on its way to the exchange
    | Live(id: nat)              // 1 for an accepted order with this id that has not ended
    | Pending(scope: Scope)      // quantity accepted and neither applied nor refused
    | Refused(scope: Scope)      // quantity in queued rejections
    | Outstanding(side: Side)    // number of accepted orders that may still change the position

  function When(b: bool, x: real): real {
    if b then x else 0.0
  }

  function ReportValue(m: Measure, r: Report): real {
    match m
    case Weight => 1.0
    case Requested(_) => 0.0
    case Unsent(_) => 0.0
    case Live(id) => When(r.orderId == id && (r.status.Filled? || r.status.Rejected?), 1.0)
    case Pending(sc) => When(r.status.Filled? && InScope(sc, r.strategy, r.side), r.lastQty)
    case Refused(sc) => When(r.status.Rejected? && InScope(sc, r.strategy, r.side), r.leavesQty)
    case Outstanding(side) => When(r.status.Filled? && r.side == side, 1.0)
  }

  /** The value of an accepted order while it rests. */
  function OrderValue(m: Measure, o: Order): real {
    match m
    case Weight => 1.0
    case Requested(_) => 0.0
    case Unsent(_) => 0.0
    case Live(id) => When(o.id == id, 1.0)
    case Pending(sc) => When(InScope(sc, o.strategy, o.side), o.quantity)
    case Refused(_) => 0.0
    case Outstanding(side) => When(o.side == side, 1.0)
  }

  function TickValue(m: Measure): real {
    When(m.Weight?, 17.0)
  }

  function Value(m: Measure, e: Event): real {
    match e
    case MarketData(_) => TickValue(m)
    case OrderRequest(o) => if m.Weight? then 4.0 else When((m.Requested? || m.Unsent?) && m.id == o.id, 1.0)
    case ValidatedOrder(o) =>
      if m.Weight? then 3.0 else if m.Unsent? then When(m.id == o.id, 1.0) else OrderValue(m, o)
    case CancelOrder(_) => When(m.Weight?, 2.0)
    case ExecutionReport(r) => ReportValue(m, r)
  }

  function Total(m: Measure, es: seq<Event>): real {
    if es == [] then 0.0 else Total(m, es[..|es| - 1]) + Value(m, es[|es| - 1])
  }

  function RestTotal(m: Measure, rs: seq<Order>): real {
    if rs == [] then 0.0 else RestTotal(m, rs[..|rs| - 1]) + OrderValue(m, rs[|rs| - 1])
  }

  function Sum(m: Measure, s: Loop): real {
    Total(m, Underway(s)) + RestTotal(m, s.sys.exchange.resting)
  }

  lemma {:induction false} TotalAppend(m: Measure, a: seq<Event>, b: seq<Event>)
    ensures Total(m, a + b) == Total(m, a) + Total(m, b)
  {
    if b == [] {
      assert a + b == a;
    } else {
      assert (a + b)[..|a + b| - 1] == a + b[..|b| - 1];
      TotalAppend(m, a, b[..|b| - 1]);
    }
  }

  lemma TotalOne(m: Measure, e: Event)
    ensures Total(m, [e]) == Value(m, e)
  {
    assert [e][..0] == [];
  }

  lemma TotalHead(m: Measure, es: seq<Event>)
    requires es != []
    ensures Total(m, es) == Value(m, es[0]) + Total(m, es[1..])
  {
    assert es == [es[0]] + es[1..];
    TotalAppend(m, [es[0]], es[1..]);
    TotalOne(m, es[0]);
  }

  ghost predicate NonNegative(m: Measure, es: seq<Event>) {
    forall e :: e in es ==> Value(m, e) >= 0.0
  }

  lemma {:induction false} TotalNonNegative(m: Measure, es: seq<Event>)
    requires NonNegative(m, es)
    ensures Total(m, es) >= 0.0
  {
    if es != [] {
      assert forall e :: e in es[..|es| - 1] ==> e in es;
      assert es[|es| - 1] in es;
      TotalNonNegative(m, es[..|es| - 1]);
    }
  }

  // The queue

  function Arrivals(m: Measure, q: Queue, q': Queue): real {
    When(m.Weight?, 17.0 * (q'.arrived - q.arrived) as real)
  }

  lemma TickEffect(m: Measure, q: Queue, t: Tick)
    ensures var q' := EnqueueTick(q, t);
            Grows(q, q') && q'.feed == q.feed && Total(m, q'.items) == Total(m, q.items) + Arrivals(m, q, q')
  {
    assert (q.items + [MarketData(t)])[..|q.items|] == q.items;
  }

  lemma {:induction false} TicksEffect(m: Measure, q: Queue, ts: seq<Tick>)
    ensures var q' := EnqueueTicks(q, ts);
            Grows(q, q') && q'.feed == q.feed && Total(m, q'.items) == Total(m, q.items) + Arrivals(m, q, q')
  {
    if ts != [] {
      var n := |ts| - 1;
      TicksEffect(m, q, ts[..n]);
      TickEffect(m, EnqueueTicks(q, ts[..n]), ts[n]);
      hide EnqueueTick, Total;
    }
  }

  lemma ArriveEffect(m: Measure, q: Queue)
    ensures var q' := Arrive(q);
            Grows(q, q') && Total(m, q'.items) == Total(m, q.items) + Arrivals(m, q, q')
  {
    if q.feed != [] {
      TicksEffect(m, q.(feed := q.feed[1..]), q.feed[0]);
    }
  }

  lemma PushEffect(m: Measure, q: Queue, e: Event)
    requires Value(m, e) >= 0.0
    ensures var q' := AfterPush(q, e);
            Grows(q, q') &&
            Total(m, q'.items) <= Total(m, q.items) + Value(m, e) + Arrivals(m, q, q') &&
            (q'.failed == q.failed ==> Total(m, q'.items) == Total(m, q.items) + Value(m, e) + Arrivals(m, q, q'))
  {
    ArriveEffect(m, q);
    var q1 := Arrive(q);
    assert (q1.items + [e])[..|q1.items|] == q1.items;
  }

  /** Pushing a list of events adds their values, or less if pushes fail. */
  lemma {:induction false} PushesEffect(m: Measure, q: Queue, es: seq<Event>)
    requires NonNegative(m, es)
    ensures var q' := AfterPushes(q, es);
            Grows(q, q') &&
            Total(m, q'.items) <= Total(m, q.items) + Total(m, es) + Arrivals(m, q, q') &&
            (q'.failed == q.failed ==> Total(m, q'.items) == Total(m, q.items) + Total(m, es) + Arrivals(m, q, q'))
  {
    if es != [] {
      var n := |es| - 1;
      assert forall e :: e in es[..n] ==> e in es;
      assert es[n] in es;
      assert Total(m, es) == Total(m, es[..n]) + Value(m, es[n]);
      PushesEffect(m, q, es[..n]);
      hide AfterPush, Total, Value;
      PushEffect(m, AfterPushes(q, es[..n]), es[n]);
    }
  }

  lemma PopEffect(m: Measure, q: Queue, es: seq<Event>)
    ensures var (e, q') := AfterPop(q);
            Grows(q, q') &&
            Total(m, (if e.None? then es else es + [e.value]) + q'.items) ==
            Total(m, es + q.items) + Arrivals(m, q, q')
  {
    ArriveEffect(m, q);
    var items := Arrive(q).items;
    TotalAppend(m, es, q.items);
    TotalAppend(m, es, items);
    hide Arrive, Total;
    if items != [] {
      assert es + items == (es + [items[0]]) + items[1..];
    }
  }

  /** Taking events off the queue changes no sum over batch and queue. */
  lemma {:induction false} PopsEffect(m: Measure, q: Queue, n: nat)
    ensures var (es, q') := PopUpTo(q, n);
            Grows(q, q') && Total(m, es + q'.items) == Total(m, q.items) + Arrivals(m, q, q')
  {
    if n == 0 {
      assert [] + q.items == q.items;
    } else {
      var (es, q1) := PopUpTo(q, n - 1);
      PopsEffect(m, q, n - 1);
      PopEffect(m, q1, es);
      hide AfterPop, Total;
    }
  }

  // The exchange

  lemma {:induction false} RestAppend(m: Measure, a: seq<Order>, b: seq<Order>)
    ensures RestTotal(m, a + b) == RestTotal(m, a) + RestTotal(m, b)
  {
    if b == [] {
      assert a + b == a;
    } else {
      assert (a + b)[..|a + b| - 1] == a + b[..|b| - 1];
      RestAppend(m, a, b[..|b| - 1]);
    }
  }

  lemma RestOneMore(m: Measure, rs: seq<Order>, o: Order)
    ensures RestTotal(m, rs + [o]) == RestTotal(m, rs) + OrderValue(m, o)
  {
    assert (rs + [o])[..|rs|] == rs;
  }

  /** A fill is worth what the order was worth. */
  lemma FillValue(m: Measure, o: Order, price: real, tradeId: nat)
    ensures Value(m, ExecutionReport(EX.Fill(o, price, tradeId))) == OrderValue(m, o)
  {
  }

  lemma {:induction false} FillsValue(m: Measure, os: seq<Order>, bid: real, ask: real, tradeId: nat)
    ensures Total(m, EX.AsEvents(EX.Fills(os, bid, ask, tradeId))) == RestTotal(m, os)
  {
    if os != [] {
      var n := |os| - 1;
      FillsValue(m, os[..n], bid, ask, tradeId);
      var es := EX.AsEvents(EX.Fills(os, bid, ask, tradeId));
      assert es[..n] == EX.AsEvents(EX.Fills(os[..n], bid, ask, tradeId));
      FillValue(m, os[n], EX.Touch(os[n].side, bid, ask), tradeId + n);
    }
  }

  lemma {:induction false} RestSplits(m: Measure, rs: seq<Order>, bid: real, ask: real)
    ensures RestTotal(m, rs) == RestTotal(m, EX.Select(rs, bid, ask, false)) +
            RestTotal(m, EX.Select(rs, bid, ask, true))
  {
    if rs != [] {
      var n := |rs| - 1;
      var crosses := EX.Crosses(rs[n], bid, ask);
      RestSplits(m, rs[..n], bid, ask);
      RestOneMore(m, EX.Select(rs[..n], bid, ask, crosses), rs[n]);
      assert EX.Select(rs[..n], bid, ask, !crosses) + [] == EX.Select(rs[..n], bid, ask, !crosses);
    }
  }

  /** A tick moves value from resting orders to fills. */
  lemma TickConserves(m: Measure, x: EX.Exchange, price: real)
    ensures var (x', fills) := EX.OnTick(x, price);
            Total(m, EX.AsEvents(fills)) + RestTotal(m, x'.resting) == RestTotal(m, x.resting)
  {
    var bid, ask := price - EX.SPREAD / 2.0, price + EX.SPREAD / 2.0;
    RestSplits(m, x.resting, bid, ask);
    FillsValue(m, EX.Select(x.resting, bid, ask, true), bid, ask, x.nextTradeId);
  }

  /** An arriving order becomes a fill, a resting order with a New report, or a rejection. */
  lemma ProcessEffect(m: Measure, x: EX.Exchange, o: Order)
    ensures var (x', r) := EX.Process(x, o);
            RestTotal(m, x'.resting) == RestTotal(m, x.resting) + (if r.status.New? then OrderValue(m, o) else 0.0) &&
            ReportValue(m, r) ==
              match r.status
              case Filled => OrderValue(m, o)
              case New => When(m.Weight?, 1.0)
              case _ => (match m
                         case Weight => 1.0
                         case Live(id) => When(o.id == id, 1.0)
                         case Refused(sc) => When(InScope(sc, o.strategy, o.side), o.quantity)
                         case _ => 0.0)
  {
    RestOneMore(m, x.resting, o);
  }

  // One step of the loop

  /** What handling `e` adds to the sum, before failed pushes and arrivals. */
  ghost function Gain(m: Measure, c: System, e: Event, env: Env): real {
    var (c', out) := React(c, e, env);
    Total(m, out) + RestTotal(m, c'.exchange.resting) - RestTotal(m, c.exchange.resting) - Value(m, e)
  }

  /** What the next step adds to the sum, before failed pushes and arrivals. */
  ghost function StepGain(m: Measure, s: Loop, env: Env): real {
    if s.batch == [] then 0.0 else Gain(m, s.sys, s.batch[0], env)
  }

  lemma StepEffect(m: Measure, s: Loop, env: Env)
    requires s.batch != [] ==> NonNegative(m, Sent(s, env))
    ensures var s' := Step(s, env);
            Grows(s.queue, s'.queue) &&
            Sum(m, s') <= Sum(m, s) + StepGain(m, s, env) + Arrivals(m, s.queue, s'.queue) &&
            (s'.queue.failed == s.queue.failed ==>
               Sum(m, s') == Sum(m, s) + StepGain(m, s, env) + Arrivals(m, s.queue, s'.queue))
  {
    hide React, AfterPushes, PopUpTo;
    if s.batch == [] {
      PopsEffect(m, s.queue, BATCH);
      assert Underway(s) == s.queue.items;
    } else {
      var out := Sent(s, env);
      PushesEffect(m, s.queue, out);
      TotalHead(m, Underway(s));
      assert Underway(s)[1..] == s.batch[1..] + s.queue.items;
      TotalAppend(m, s.batch[1..], s.queue.items);
      TotalAppend(m, s.batch[1..], AfterPushes(s.queue, out).items);
      hide Total, Value;
    }
  }

  lemma GainOfTick(m: Measure, c: System, t: Tick, env: Env)
    ensures Gain(m, c, MarketData(t), env) == Total(m, StrategiesOnTick(c, t.price, env).2) - TickValue(m)
  {
    hide StrategiesOnTick, EX.OnTick;
    TickConserves(m, c.exchange, t.price);
    TotalAppend(m, StrategiesOnTick(c, t.price, env).2, EX.AsEvents(EX.OnTick(c.exchange, t.price).1));
  }

  lemma GainOfRequest(m: Measure, c: System, o: Order, env: Env)
    ensures Gain(m, c, OrderRequest(o), env) ==
            (if OM.Validates(c.risk, o) then Value(m, ValidatedOrder(o)) else 0.0) - Value(m, OrderRequest(o))
  {
    hide Value;
    TotalOne(m, ValidatedOrder(o));
  }

  lemma GainOfOrder(m: Measure, c: System, o: Order, env: Env)
    ensures var r := EX.Process(c.exchange, o).1;
            Gain(m, c, ValidatedOrder(o), env) ==
            ReportValue(m, r) + (if r.status.New? then OrderValue(m, o) else 0.0) - Value(m, ValidatedOrder(o))
  {
    hide EX.Process, OrderValue;
    ProcessEffect(m, c.exchange, o);
    TotalOne(m, ExecutionReport(EX.Process(c.exchange, o).1));
  }

  lemma GainOfCancel(m: Measure, c: System, id: nat, env: Env)
    ensures Gain(m, c, CancelOrder(id), env) == When(m.Weight?, -1.0)
  {
    TotalOne(m, ExecutionReport(EX.Cancel(c.exchange, id).1));
  }

  lemma GainOfReport(m: Measure, c: System, r: Report, env: Env)
    ensures Gain(m, c, ExecutionReport(r), env) == -ReportValue(m, r)
  {
    hide ReportValue;
  }
}
