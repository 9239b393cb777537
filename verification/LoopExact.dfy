/**
 The bound of LoopRisk cannot be improved: for every k there is a run of the strategies' own orders,
 with at most k of them outstanding at every moment, that ends exactly at it; and for any size of
 order k orders checked at the same position do. And the plain limit is kept in all runs exactly when
 it is too small for the orders that can be sent, as main.cpp is wired and with a book that is fed.
 */
module LoopExact {
  import opened Events
  import opened EventQueues
  import opened EventLoops
  import opened LoopSteps
  import opened LoopMeasures
  import opened LoopDrains
  import opened LoopWiring
  import opened LoopQuiet
  import opened LoopRisk
  import opened LoopSafety
  import opened LoopOverrun
  import LoopStaircase
  import LoopLifecycle
  import opened MapSums
  import EX = MatchingEngines
  import MM = MarketMakers
  import MO = Momentums
  import OM = OrderManagers

  // The strategies' own orders

  lemma {:induction false} AcceptedGrow(s: Loop, envs: seq<Env>, i: nat)
    requires i <= |envs|
    ensures Run(s, envs[..i]).sys.log.accepted <= Run(s, envs).sys.log.accepted
    decreases |envs|
  {
    if i == |envs| {
      assert envs[..i] == envs;
    } else {
      var n := |envs| - 1;
      AcceptedGrow(s, envs[..n], i);
      assert envs[..n][..i] == envs[..i];
      AcceptedStep(Run(s, envs[..n]), envs[n]);
      hide Step;
    }
  }

  lemma AcceptedStep(s: Loop, env: Env)
    ensures s.sys.log.accepted <= Step(s, env).sys.log.accepted
  {
    hide StrategiesOnTick, EX.OnTick, EX.Process, EventLoops.PE.Mark, EventLoops.PE.OnFill, AfterPushes, PopUpTo;
  }

  /** Only acceptance makes an order outstanding. */
  lemma OutstandingGain(c: System, e: Event, env: Env)
    ensures Gain(Outstanding(Buy), c, e, env) <=
            (Buys(React(c, e, env).0.log.accepted) - Buys(c.log.accepted)) as real
  {
    var m := Outstanding(Buy);
    match e
    case MarketData(t) =>
      GainOfTick(m, c, t, env);
      StrategiesSend(c, t.price, env);
      StrategiesAddNothing(m, StrategiesOnTick(c, t.price, env).2);
      hide Gain, StrategiesOnTick, EX.OnTick, Buys;
    case OrderRequest(o) =>
      GainOfRequest(m, c, o, env);
      hide Gain;
      assert (c.log.accepted + [o])[..|c.log.accepted|] == c.log.accepted;
    case ValidatedOrder(o) =>
      GainOfOrder(m, c, o, env);
      hide Gain, EX.Process, Buys;
    case CancelOrder(id) =>
      GainOfCancel(m, c, id, env);
      hide Gain, Buys;
    case ExecutionReport(r) =>
      GainOfReport(m, c, r, env);
      hide Gain, EventLoops.PE.Mark, EventLoops.PE.OnFill, Buys;
  }

  lemma OutstandingStep(s: Loop, env: Env)
    requires Basic(s) && Sum(Outstanding(Buy), s) <= Buys(s.sys.log.accepted) as real
    ensures Sum(Outstanding(Buy), Step(s, env)) <= Buys(Step(s, env).sys.log.accepted) as real
  {
    StepKeepsBasic(s, env);
    StepEffect(Outstanding(Buy), s, env);
    hide React, AfterPushes, PopUpTo, Gain, Sum, Basic, Buys;
    if s.batch != [] {
      OutstandingGain(s.sys, s.batch[0], env);
    }
  }

  lemma {:induction false} OutstandingIsAccepted(capacity: nat, feed: seq<seq<Tick>>, maxPosition: real, envs: seq<Env>)
    ensures var s := Run(Start(capacity, feed, maxPosition), envs);
            Basic(s) && Sum(Outstanding(Buy), s) <= Buys(s.sys.log.accepted) as real
  {
    WorkIsPaidFor(capacity, feed, maxPosition, envs);
    if envs != [] {
      var n := |envs| - 1;
      OutstandingIsAccepted(capacity, feed, maxPosition, envs[..n]);
      OutstandingStep(Run(Start(capacity, feed, maxPosition), envs[..n]), envs[n]);
      hide Step, Sum, Basic;
    }
  }

  lemma {:induction false} BuysOfPrefix(os: seq<Order>, n: nat)
    requires n <= |os|
    ensures Buys(os[..n]) <= Buys(os)
  {
    if n == |os| {
      assert os[..n] == os;
    } else {
      var m := |os| - 1;
      BuysOfPrefix(os[..m], n);
      assert os[..m][..n] == os[..n];
    }
  }

  /** With only single lots accepted, only single lots are outstanding. */
  lemma LotsOutstanding(s: Loop, os: seq<Order>)
    requires Backed(s) && s.sys.log.accepted <= os && AllAway(os)
    ensures forall e :: e in Underway(s) ==> EventAtMost(e, Buy, MM.LOT)
    ensures forall o :: o in s.sys.exchange.resting && o.side.Buy? ==> o.quantity <= MM.LOT
  {
    var mine := s.sys.log.accepted;
    forall o | o in mine ensures Away(o) {
      assert o in os;
    }
    forall e | e in Underway(s) ensures EventAtMost(e, Buy, MM.LOT) {
      assert EventBacked(e, mine);
    }
  }

  lemma LongRunAtMost(capacity: nat, feed: seq<seq<Tick>>, maxPosition: real, envs: seq<Env>, k: nat, i: nat)
    requires i <= |envs|
    requires var log := Run(Start(capacity, feed, maxPosition), envs).sys.log;
             Buys(log.accepted) == k && AllAway(log.accepted)
    ensures OutstandingAtMost(Run(Start(capacity, feed, maxPosition), envs[..i]), Buy, k, MM.LOT)
  {
    var s0 := Start(capacity, feed, maxPosition);
    var s, os := Run(s0, envs[..i]), Run(s0, envs).sys.log.accepted;
    AcceptedGrow(s0, envs, i);
    OutstandingIsAccepted(capacity, feed, maxPosition, envs[..i]);
    RunKeepsBacked(capacity, feed, maxPosition, envs[..i]);
    LotsOutstanding(s, os);
    BuysOfPrefix(os, |s.sys.log.accepted|);
    hide Run, Sum, Buys, AllAway, Backed, Basic, EventAtMost;
    assert os[..|s.sys.log.accepted|] == s.sys.log.accepted;
  }

  /** For every k there is a run with at most k buys of one lot outstanding at every moment that
      ends at exactly the limit plus k - 1 lots: ExposureBound cannot be improved. */
  lemma BoundIsReached(k: nat, capacity: nat)
    requires k >= 1 && capacity >= 4 && capacity >= k
    ensures exists feed, envs ::
              AllowedRun(BookFed, Start(capacity, feed, 0.1), envs) &&
              AlwaysAtMost(Start(capacity, feed, 0.1), envs, Buy, k, 0.1) &&
              Exposure(Run(Start(capacity, feed, 0.1), envs).sys, Buy) == 0.1 + (k - 1) as real * 0.1
  {
    var feed, envs := LongRun(k, capacity, 0.1);
    var s0 := Start(capacity, feed, 0.1);
    assert Exposure(Run(s0, envs).sys, Buy) == 0.1 + (k - 1) as real * 0.1;
    hide Run, AllowedRun, Buys, AllAway, OutstandingAtMost, Exposure;
    forall i | 0 <= i <= |envs| ensures OutstandingAtMost(Run(s0, envs[..i]), Buy, k, 0.1) {
      LongRunAtMost(capacity, feed, 0.1, envs, k, i);
    }
    assert AlwaysAtMost(s0, envs, Buy, k, 0.1);
  }

  // Orders of any size

  /** Buys of size q that trade at once. */
  ghost predicate Aggressive(x: EX.Exchange, os: seq<Order>, q: real) {
    x.bestAsk > 0.0 &&
    forall o :: o in os ==> o.kind.Limit? && o.side.Buy? && o.quantity == q && o.price >= x.bestAsk
  }

  lemma OneAccepted(c: System, o: Order, q: real, env: Env)
    requires q > 0.0 && o.kind.Limit? && o.side.Buy? && o.quantity == q && o.price > 0.0
    requires Abs(c.risk.position + q) <= c.risk.maxPosition
    ensures var (c', out) := React(c, OrderRequest(o), env);
            c'.risk == c.risk && c'.exchange == c.exchange && out == [ValidatedOrder(o)]
  {
  }

  lemma {:induction false} AllAccepted(c: System, os: seq<Order>, q: real, env: Env)
    requires q > 0.0 && Aggressive(c.exchange, os, q) && Abs(c.risk.position + q) <= c.risk.maxPosition
    ensures var (c', out) := Absorb(c, MO.Requests(os), env);
            c'.risk == c.risk && c'.exchange == c.exchange && |out| == |os| &&
            forall i :: 0 <= i < |os| ==> out[i] == ValidatedOrder(os[i])
  {
    if os != [] {
      var n := |os| - 1;
      assert os[n] in os;
      assert MO.Requests(os)[..n] == MO.Requests(os[..n]);
      AllAccepted(c, os[..n], q, env);
      OneAccepted(Absorb(c, MO.Requests(os[..n]), env).0, os[n], q, env);
      hide React, Abs, MO.Requests;
    }
  }

  lemma {:induction false} AllFilled(c: System, es: seq<Event>, os: seq<Order>, q: real, env: Env)
    requires Aggressive(c.exchange, os, q) && |es| == |os|
    requires forall i :: 0 <= i < |os| ==> es[i] == ValidatedOrder(os[i])
    ensures var (c', out) := Absorb(c, es, env);
            c'.risk == c.risk && |out| == |os| &&
            c'.exchange == c.exchange.(nextTradeId := c.exchange.nextTradeId + |os|) &&
            forall i :: 0 <= i < |os| ==>
              out[i] == ExecutionReport(EX.Fill(os[i], c.exchange.bestAsk, c.exchange.nextTradeId + i))
  {
    if os != [] {
      var n := |os| - 1;
      assert os[n] in os;
      AllFilled(c, es[..n], os[..n], q, env);
    }
  }

  /** Any number k of buys of any size q, checked while the position is q below the limit: all are
      accepted, the exchange fills all of them, and its reports take the position to exactly the
      limit plus (k - 1) q. */
  lemma BoundIsReachedAtAnySize(c: System, os: seq<Order>, q: real, env: Env)
    requires os != [] && q > 0.0 && Aggressive(c.exchange, os, q)
    requires c.risk.maxPosition >= 0.0 && c.risk.position == c.risk.maxPosition - q
    ensures var (c1, validated) := Absorb(c, MO.Requests(os), env);
            var (c2, fills) := Absorb(c1, validated, env);
            |validated| == |os| == |fills| &&
            Absorb(c2, fills, env).0.risk.position == c.risk.maxPosition + (|os| - 1) as real * q
  {
    AllAccepted(c, os, q, env);
    var (c1, validated) := Absorb(c, MO.Requests(os), env);
    hide Absorb, Times;
    AllFilled(c1, validated, os, q, env);
    var (c2, fills) := Absorb(c1, validated, env);
    forall e | e in fills ensures FilledBuy(e, q) {
      var i :| 0 <= i < |fills| && fills[i] == e;
      assert os[i] in os;
    }
    assert AllFilledBuys(fills, q);
    hide FilledBuy, AllFilledBuys, Aggressive;
    AllApplied(c2, fills, q, env);
    OneMoreTime(|os| - 1, q);
    TimesIsProduct((|os| - 1) as real, q);
  }

  // When the limit does hold

  /** Nothing was ever accepted, so nothing can move the position. */
  ghost predicate Untraded(c: System, limit: real) {
    c.log.accepted == [] && c.risk.position == 0.0 && c.risk.maxPosition < limit
  }

  /** No request under way is for less than `lot`. */
  ghost predicate RequestsOf(es: seq<Event>, lot: real) {
    forall e :: e in es && e.OrderRequest? ==> e.order.quantity >= lot
  }

  lemma UntradedReact(c: System, e: Event, env: Env, lot: real)
    requires Untraded(c, lot) && EventBacked(e, []) && (e.OrderRequest? ==> e.order.quantity >= lot)
    ensures var c' := React(c, e, env).0; Untraded(c', lot) && c'.risk == c.risk
  {
    match e
    case OrderRequest(o) =>
      assert !OM.Validates(c.risk, o);
    case _ =>
      hide StrategiesOnTick, EX.OnTick, EX.Process, EventLoops.PE.Mark, EventLoops.PE.OnFill;
  }

  lemma UntradedStep(s: Loop, env: Env, lot: real)
    requires Backed(s) && Untraded(s.sys, lot) && RequestsOf(Underway(s), lot)
    requires s.batch != [] ==> RequestsOf(Sent(s, env), lot)
    ensures Untraded(Step(s, env).sys, lot) && RequestsOf(Underway(Step(s, env)), lot)
  {
    StepMembers(s, env);
    hide React, AfterPushes, PopUpTo, SystemBacked, EventBacked;
    if s.batch != [] {
      assert s.batch[0] in Underway(s);
      UntradedReact(s.sys, s.batch[0], env, lot);
    }
  }

  /** With any book: a limit below one lot of the market maker lets nothing through. */
  lemma {:induction false} SmallLimitBlocksAll(capacity: nat, feed: seq<seq<Tick>>, maxPosition: real, envs: seq<Env>)
    requires maxPosition < MM.LOT
    ensures var s := Run(Start(capacity, feed, maxPosition), envs);
            Untraded(s.sys, MM.LOT) && RequestsOf(Underway(s), MM.LOT)
  {
    if envs != [] {
      var n := |envs| - 1;
      var s := Run(Start(capacity, feed, maxPosition), envs[..n]);
      hide Step, Untraded, Backed, Basic;
      SmallLimitBlocksAll(capacity, feed, maxPosition, envs[..n]);
      RunKeepsBacked(capacity, feed, maxPosition, envs[..n]);
      WorkIsPaidFor(capacity, feed, maxPosition, envs[..n]);
      if s.batch != [] {
        SizedSent(s, envs[n]);
      }
      UntradedStep(s, envs[n], MM.LOT);
    }
  }

  lemma SizedSent(s: Loop, env: Env)
    requires Basic(s) && s.batch != []
    ensures RequestsOf(Sent(s, env), MM.LOT)
  {
    hide React, SystemOk;
    assert s.batch[0] in Underway(s);
    ReactSized(s.sys, s.batch[0], env);
    forall e | e in Sent(s, env) && e.OrderRequest? ensures e.order.quantity >= MM.LOT {
      assert EventSized(e);
    }
  }

  /** Without a book only the momentum strategy sends orders. */
  lemma MomentumSent(c: System, e: Event, env: Env)
    requires env.top.None?
    ensures RequestsOf(React(c, e, env).1, MO.LOT)
  {
    match e
    case MarketData(t) =>
      TrendLots(c.momentum, t.price);
      LoopLifecycle.FillsAreFilled(c.exchange, t.price);
      hide MO.OnPrice, EX.OnTick, MO.Requests;
    case _ =>
      hide EX.Process, EventLoops.PE.Mark, EventLoops.PE.OnFill;
  }

  lemma TrendLots(m: MO.Momentum, price: real)
    ensures RequestsOf(MO.Requests(MO.OnPrice(m, price).1), MO.LOT)
  {
    hide MO.Bullish, MO.Bearish;
  }

  /** As wired a limit below one lot of the momentum strategy is enough for that. */
  lemma {:induction false} SmallLimitBlocksMomentum(
      capacity: nat, feed: seq<seq<Tick>>, maxPosition: real, envs: seq<Env>)
    requires maxPosition < MO.LOT && AllowedRun(AsWired, Start(capacity, feed, maxPosition), envs)
    ensures var s := Run(Start(capacity, feed, maxPosition), envs);
            Untraded(s.sys, MO.LOT) && RequestsOf(Underway(s), MO.LOT)
  {
    AsWiredHasNoBook(Start(capacity, feed, maxPosition), envs);
    if envs != [] {
      var n := |envs| - 1;
      var s := Run(Start(capacity, feed, maxPosition), envs[..n]);
      hide Step, Untraded, Backed, RequestsOf;
      SmallLimitBlocksMomentum(capacity, feed, maxPosition, envs[..n]);
      RunKeepsBacked(capacity, feed, maxPosition, envs[..n]);
      if s.batch != [] {
        MomentumSent(s.sys, s.batch[0], envs[n]);
      }
      UntradedStep(s, envs[n], MO.LOT);
    }
  }

  // A queue without room

  lemma {:induction false} NoRoomForTicks(q: Queue, ts: seq<Tick>)
    requires q.capacity == 0 && q.items == []
    ensures EnqueueTicks(q, ts).items == [] && EnqueueTicks(q, ts).capacity == 0
  {
    if ts != [] {
      NoRoomForTicks(q, ts[..|ts| - 1]);
    }
  }

  lemma {:induction false} NoRoomForPops(q: Queue, n: nat)
    requires q.capacity == 0 && q.items == []
    ensures PopUpTo(q, n).0 == [] && PopUpTo(q, n).1.items == [] && PopUpTo(q, n).1.capacity == 0
  {
    if n > 0 {
      NoRoomForPops(q, n - 1);
      var q1 := PopUpTo(q, n - 1).1;
      if q1.feed != [] {
        NoRoomForTicks(q1.(feed := q1.feed[1..]), q1.feed[0]);
      }
    }
  }

  lemma {:induction false} NoRoomNoTrade(feed: seq<seq<Tick>>, maxPosition: real, envs: seq<Env>)
    ensures var s := Run(Start(0, feed, maxPosition), envs);
            s.batch == [] && s.queue.items == [] && s.queue.capacity == 0 && s.sys.risk.position == 0.0
  {
    if envs != [] {
      var n := |envs| - 1;
      NoRoomNoTrade(feed, maxPosition, envs[..n]);
      NoRoomForPops(Run(Start(0, feed, maxPosition), envs[..n]).queue, BATCH);
      hide PopUpTo, React;
    }
  }

  /** Not even the first state keeps a negative limit. */
  lemma NegativeLimit(w: Wiring, capacity: nat, maxPosition: real)
    requires maxPosition < 0.0
    ensures exists feed, envs ::
              AllowedRun(w, Start(capacity, feed, maxPosition), envs) &&
              Abs(Run(Start(capacity, feed, maxPosition), envs).sys.risk.position) > maxPosition
  {
    var s := Start(capacity, [], maxPosition);
    assert AllowedRun(w, s, []) && Run(s, []) == s;
  }

  /** main.cpp as it is wired, with any limit and any queue: the position limit is kept in all runs
      if and only if it is not negative, and either too small for a single order of the momentum
      strategy or no event ever fits the queue. */
  lemma LimitIsKeptAsWiredIff(capacity: nat, maxPosition: real)
    ensures (forall feed, envs ::
               AllowedRun(AsWired, Start(capacity, feed, maxPosition), envs) ==>
               Abs(Run(Start(capacity, feed, maxPosition), envs).sys.risk.position) <= maxPosition)
            <==> maxPosition >= 0.0 && (maxPosition < 0.5 || capacity == 0)
  {
    hide Run, AllowedRun;
    if maxPosition < 0.0 {
      NegativeLimit(AsWired, capacity, maxPosition);
    } else if maxPosition < 0.5 || capacity == 0 {
      forall feed, envs | AllowedRun(AsWired, Start(capacity, feed, maxPosition), envs)
        ensures Abs(Run(Start(capacity, feed, maxPosition), envs).sys.risk.position) <= maxPosition
      {
        if capacity == 0 {
          NoRoomNoTrade(feed, maxPosition, envs);
        } else {
          SmallLimitBlocksMomentum(capacity, feed, maxPosition, envs);
        }
      }
    } else {
      LoopStaircase.PositionIsUnbounded(AsWired, capacity, maxPosition, maxPosition);
      var feed, envs :| AllowedRun(AsWired, Start(capacity, feed, maxPosition), envs) &&
        Run(Start(capacity, feed, maxPosition), envs).sys.risk.position > maxPosition;
      assert Abs(Run(Start(capacity, feed, maxPosition), envs).sys.risk.position) > maxPosition;
    }
  }

  /** With a book that is fed every tick, any limit, and a queue with room for five events: if and only
      if it is not negative and too small for a lot of the market maker. */
  lemma LimitIsKeptWithBookIff(capacity: nat, maxPosition: real)
    requires capacity >= 5
    ensures (forall feed, envs ::
               AllowedRun(BookFed, Start(capacity, feed, maxPosition), envs) ==>
               Abs(Run(Start(capacity, feed, maxPosition), envs).sys.risk.position) <= maxPosition)
            <==> 0.0 <= maxPosition < 0.1
  {
    hide Run, AllowedRun;
    if maxPosition < 0.0 {
      NegativeLimit(BookFed, capacity, maxPosition);
    } else if maxPosition < 0.1 {
      forall feed, envs | AllowedRun(BookFed, Start(capacity, feed, maxPosition), envs)
        ensures Abs(Run(Start(capacity, feed, maxPosition), envs).sys.risk.position) <= maxPosition
      {
        SmallLimitBlocksAll(capacity, feed, maxPosition, envs);
      }
    } else {
      PassedWithBook(capacity, maxPosition);
      var feed, envs :| AllowedRun(BookFed, Start(capacity, feed, maxPosition), envs) &&
        Run(Start(capacity, feed, maxPosition), envs).sys.risk.position > maxPosition;
      assert Abs(Run(Start(capacity, feed, maxPosition), envs).sys.risk.position) > maxPosition;
    }
  }

  /** Limits with room for an order of the momentum strategy are passed by its orders, smaller ones by
      five quotes of the market maker. */
  lemma PassedWithBook(capacity: nat, maxPosition: real)
    requires maxPosition >= 0.1 && capacity >= 5
    ensures exists feed, envs ::
              AllowedRun(BookFed, Start(capacity, feed, maxPosition), envs) &&
              Run(Start(capacity, feed, maxPosition), envs).sys.risk.position > maxPosition
  {
    hide Run, AllowedRun;
    if maxPosition >= 0.5 {
      LoopStaircase.PositionIsUnbounded(BookFed, capacity, maxPosition, maxPosition);
    } else {
      LimitCanBeExceeded(5, capacity, maxPosition);
      var feed, envs :| AllowedRun(BookFed, Start(capacity, feed, maxPosition), envs) &&
        var s := Run(Start(capacity, feed, maxPosition), envs);
        s.sys.risk.position == 5 as real * 0.1 && s.queue.failed == 0;
      assert Run(Start(capacity, feed, maxPosition), envs).sys.risk.position > maxPosition;
    }
  }
}
