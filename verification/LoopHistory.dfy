/**
 What the components know, told from the events handled alone: the position every order and every
 quote is decided on, which requests were accepted, the state of both strategies, and what they sent.
 Except where a lemma says so this holds with failed pushes as well.
 */
module LoopHistory {
  import opened Events
  import opened EventQueues
  import opened EventLoops
  import opened LoopFate
  import opened LoopLedger
  import MM = MarketMakers
  import MO = Momentums
  import EX = MatchingEngines
  import PE = PnLEngines
  import PT = PnLTheory

  // The position

  /** The signed sum of the fills among these events. */
  function NetPosition(es: seq<Event>): real {
    PT.Net(FillsIn(ReportsOf(es)))
  }

  lemma {:induction false} ReportsAreHandled(capacity: nat, feed: seq<seq<Tick>>, maxPosition: real, envs: seq<Env>)
    ensures var s := Run(Start(capacity, feed, maxPosition), envs); s.sys.log.reports == ReportsOf(s.handled)
  {
    if envs != [] {
      var n := |envs| - 1;
      var s := Run(Start(capacity, feed, maxPosition), envs[..n]);
      ReportsAreHandled(capacity, feed, maxPosition, envs[..n]);
      hide React, AfterPushes, PopUpTo;
      if s.batch != [] {
        ReactOnExchange(s.sys, s.batch[0], envs[n]);
        assert (s.handled + [s.batch[0]])[..|s.handled|] == s.handled;
      }
    }
  }

  /** At every moment the position the limit is checked against, and the one the strategies are given,
      is that of the fills handled so far. */
  lemma {:induction false} PositionOfHistory(capacity: nat, feed: seq<seq<Tick>>, maxPosition: real, envs: seq<Env>)
    ensures var s := Run(Start(capacity, feed, maxPosition), envs);
            s.sys.risk.position == NetPosition(s.handled) == PE.TotalPosition(s.sys.pnl.stats)
  {
    ReportsAreHandled(capacity, feed, maxPosition, envs);
    PositionsAgree(capacity, feed, maxPosition, envs);
    hide Run;
  }

  lemma {:induction false} LimitStays(capacity: nat, feed: seq<seq<Tick>>, maxPosition: real, envs: seq<Env>)
    ensures Run(Start(capacity, feed, maxPosition), envs).sys.risk.maxPosition == maxPosition
  {
    if envs != [] {
      LimitStays(capacity, feed, maxPosition, envs[..|envs| - 1]);
      var s := Run(Start(capacity, feed, maxPosition), envs[..|envs| - 1]);
      hide AfterPushes, PopUpTo, StrategiesOnTick, EX.OnTick, EX.Process, PE.Mark, PE.OnFill;
    }
  }

  // Which requests are accepted

  function PositionAfter(position: real, o: Order): real {
    if o.side.Buy? then position + o.quantity else position - o.quantity
  }

  /** What handling a request sends, at any position and on both sides: the order goes on exactly if it
      is well formed and takes the position to a value between minus the limit and the limit. */
  lemma RequestDecided(c: System, o: Order, env: Env)
    ensures React(c, OrderRequest(o), env).1 ==
            if o.quantity > 0.0 && (o.kind.Limit? ==> o.price > 0.0) &&
               -c.risk.maxPosition <= PositionAfter(c.risk.position, o) <= c.risk.maxPosition
            then [ValidatedOrder(o)] else []
  {
  }

  /** So an order that makes the position smaller, without turning it round, is refused exactly while
      the position would still be outside the limit: never while it was inside. */
  lemma ReducingOrder(c: System, o: Order, env: Env)
    requires o.quantity > 0.0 && (o.kind.Limit? ==> o.price > 0.0)
    requires if c.risk.position > 0.0 then o.side.Sell? else o.side.Buy?
    requires o.quantity <= Abs(c.risk.position)
    ensures React(c, OrderRequest(o), env).1 == [ValidatedOrder(o)] <==>
            Abs(c.risk.position) - o.quantity <= c.risk.maxPosition
    ensures Abs(c.risk.position) <= c.risk.maxPosition ==> React(c, OrderRequest(o), env).1 == [ValidatedOrder(o)]
  {
    RequestDecided(c, o, env);
    hide React;
  }

  /** The requests among these events that took the position of the fills before them to a value
      inside the limit. */
  ghost function AcceptedIn(es: seq<Event>, limit: real): seq<Order> {
    if es == [] then []
    else
      var before, e := es[..|es| - 1], es[|es| - 1];
      AcceptedIn(before, limit) +
      if e.OrderRequest? && e.order.quantity > 0.0 && (e.order.kind.Limit? ==> e.order.price > 0.0) &&
         -limit <= PositionAfter(NetPosition(before), e.order) <= limit
      then [e.order] else []
  }

  /** In every run exactly those were accepted, in that order. */
  lemma {:induction false} AcceptedInRun(capacity: nat, feed: seq<seq<Tick>>, maxPosition: real, envs: seq<Env>)
    ensures var s := Run(Start(capacity, feed, maxPosition), envs);
            s.sys.log.accepted == AcceptedIn(s.handled, maxPosition)
  {
    if envs != [] {
      var n := |envs| - 1;
      var s := Run(Start(capacity, feed, maxPosition), envs[..n]);
      AcceptedInRun(capacity, feed, maxPosition, envs[..n]);
      PositionOfHistory(capacity, feed, maxPosition, envs[..n]);
      LimitStays(capacity, feed, maxPosition, envs[..n]);
      hide Step, AcceptedIn, NetPosition;
      AcceptedStep(s, envs[n]);
    }
  }

  lemma AcceptedStep(s: Loop, env: Env)
    requires s.sys.log.accepted == AcceptedIn(s.handled, s.sys.risk.maxPosition)
    requires s.sys.risk.position == NetPosition(s.handled)
    ensures Step(s, env).sys.log.accepted == AcceptedIn(Step(s, env).handled, s.sys.risk.maxPosition)
  {
    hide React, AfterPushes, PopUpTo, NetPosition;
    if s.batch != [] {
      var accepted := s.sys.log.accepted;
      assert (s.handled + [s.batch[0]])[..|s.handled|] == s.handled;
      ReactAccepts(s.sys, s.batch[0], env);
      assert accepted + [] == accepted;
    }
  }

  lemma ReactAccepts(c: System, e: Event, env: Env)
    ensures React(c, e, env).0.log.accepted == c.log.accepted +
            if e.OrderRequest? && e.order.quantity > 0.0 && (e.order.kind.Limit? ==> e.order.price > 0.0) &&
               -c.risk.maxPosition <= PositionAfter(c.risk.position, e.order) <= c.risk.maxPosition
            then [e.order] else []
  {
    hide StrategiesOnTick, EX.OnTick, EX.Process, PE.Mark, PE.OnFill;
  }

  // The position the strategies are given

  /** The events before the last tick. */
  function BeforeLastTick(es: seq<Event>): seq<Event> {
    if es == [] then []
    else if es[|es| - 1].MarketData? then es[..|es| - 1]
    else BeforeLastTick(es[..|es| - 1])
  }

  lemma MakerKeepsPosition(m: MM.MarketMaker, top: Option<MM.TopOfBook>, elapsed: bool)
    ensures MM.OnBook(m, top, elapsed).0.position == m.position
  {
    hide MM.BidQuote, MM.AskQuote, MM.Cancels, MM.Requotes;
  }

  lemma ReactTellsMaker(c: System, e: Event, env: Env)
    ensures React(c, e, env).0.maker.position ==
            if e.MarketData? then PE.TotalPosition(c.pnl.stats) else c.maker.position
  {
    if e.MarketData? {
      MakerKeepsPosition(c.maker.(position := PE.TotalPosition(c.pnl.stats)), env.top, env.elapsed);
    }
    hide MM.OnBook, MO.OnPrice, EX.OnTick, EX.Process, PE.Mark, PE.OnFill, PE.TotalPosition;
  }

  /** The market maker's position is that of the fills handled before the last tick, and 0 before the
      first. */
  lemma {:induction false} MakerPosition(capacity: nat, feed: seq<seq<Tick>>, maxPosition: real, envs: seq<Env>)
    ensures var s := Run(Start(capacity, feed, maxPosition), envs);
            s.sys.maker.position == NetPosition(BeforeLastTick(s.handled))
  {
    if envs != [] {
      var n := |envs| - 1;
      var s := Run(Start(capacity, feed, maxPosition), envs[..n]);
      MakerPosition(capacity, feed, maxPosition, envs[..n]);
      PositionOfHistory(capacity, feed, maxPosition, envs[..n]);
      hide React, AfterPushes, PopUpTo, NetPosition;
      if s.batch != [] {
        assert (s.handled + [s.batch[0]])[..|s.handled|] == s.handled;
        ReactTellsMaker(s.sys, s.batch[0], envs[n]);
      }
    }
  }

  /** When a tick is handled, that is the position the limit is checked against at that moment. */
  lemma {:induction false} MakerSeesRiskPosition(
      capacity: nat, feed: seq<seq<Tick>>, maxPosition: real, envs: seq<Env>, env: Env)
    requires var s := Run(Start(capacity, feed, maxPosition), envs); s.batch != [] && s.batch[0].MarketData?
    ensures var s := Run(Start(capacity, feed, maxPosition), envs);
            Step(s, env).sys.maker.position == s.sys.risk.position == Step(s, env).sys.risk.position
  {
    var s := Run(Start(capacity, feed, maxPosition), envs);
    PositionOfHistory(capacity, feed, maxPosition, envs);
    ReactTellsMaker(s.sys, s.batch[0], env);
    hide Run, AfterPushes, StrategiesOnTick, EX.OnTick, NetPosition;
  }

  // The strategies' own histories

  function PricesIn(es: seq<Event>): seq<real> {
    if es == [] then []
    else PricesIn(es[..|es| - 1]) + if es[|es| - 1].MarketData? then [es[|es| - 1].tick.price] else []
  }

  lemma TickMovesMomentum(c: System, t: Tick, env: Env)
    ensures React(c, MarketData(t), env).0.momentum == MO.OnPrice(c.momentum, t.price).0
  {
    hide MM.OnBook, MO.OnPrice, EX.OnTick;
  }

  lemma OthersLeaveStrategies(c: System, e: Event, env: Env)
    requires !e.MarketData?
    ensures React(c, e, env).0.momentum == c.momentum && React(c, e, env).0.maker == c.maker
  {
    hide EX.Process, PE.Mark, PE.OnFill;
  }

  lemma MomentumOneMore(prices: seq<real>, price: real)
    ensures var (m, os) := MO.Run(prices);
            MO.Run(prices + [price]) == (MO.OnPrice(m, price).0, os + MO.OnPrice(m, price).1)
  {
    assert (prices + [price])[..|prices|] == prices;
    hide MO.OnPrice;
  }

  /** The momentum strategy has seen the prices of the ticks handled, each once and in order. */
  lemma {:induction false} MomentumOfHistory(capacity: nat, feed: seq<seq<Tick>>, maxPosition: real, envs: seq<Env>)
    ensures var s := Run(Start(capacity, feed, maxPosition), envs); s.sys.momentum == MO.Run(PricesIn(s.handled)).0
  {
    if envs != [] {
      var n := |envs| - 1;
      var s := Run(Start(capacity, feed, maxPosition), envs[..n]);
      MomentumOfHistory(capacity, feed, maxPosition, envs[..n]);
      hide React, AfterPushes, PopUpTo, MO.OnPrice;
      if s.batch != [] {
        var e := s.batch[0];
        assert (s.handled + [e])[..|s.handled|] == s.handled;
        if e.MarketData? {
          TickMovesMomentum(s.sys, e.tick, envs[n]);
          MomentumOneMore(PricesIn(s.handled), e.tick.price);
        } else {
          OthersLeaveStrategies(s.sys, e, envs[n]);
          assert PricesIn(s.handled) + [] == PricesIn(s.handled);
        }
      }
    }
  }

  /** The turns the market maker has had: the book and the clock at each tick handled, and the position
      of the fills before it. */
  ghost function TurnsOf(s: Loop, envs: seq<Env>): seq<MM.Turn> {
    if envs == [] then []
    else
      var n := |envs| - 1;
      var before := Run(s, envs[..n]);
      TurnsOf(s, envs[..n]) +
      if before.batch != [] && before.batch[0].MarketData? then
        [MM.Turn(envs[n].top, envs[n].elapsed, NetPosition(before.handled))]
      else []
  }

  lemma TickMovesMaker(c: System, t: Tick, env: Env)
    ensures React(c, MarketData(t), env).0.maker ==
            MM.OnBook(c.maker.(position := PE.TotalPosition(c.pnl.stats)), env.top, env.elapsed).0
  {
    hide MM.OnBook, MO.OnPrice, EX.OnTick, PE.TotalPosition;
  }

  lemma MakerOneMore(turns: seq<MM.Turn>, t: MM.Turn)
    ensures var (m, es) := MM.Run(turns);
            var (m', sent) := MM.OnBook(m.(position := t.position), t.top, t.elapsed);
            MM.Run(turns + [t]) == (m', es + sent)
  {
    assert (turns + [t])[..|turns|] == turns;
    hide MM.OnBook;
  }

  lemma {:induction false} MakerOfHistory(capacity: nat, feed: seq<seq<Tick>>, maxPosition: real, envs: seq<Env>)
    ensures var s0 := Start(capacity, feed, maxPosition); Run(s0, envs).sys.maker == MM.Run(TurnsOf(s0, envs)).0
  {
    if envs != [] {
      var n := |envs| - 1;
      var s0 := Start(capacity, feed, maxPosition);
      var s := Run(s0, envs[..n]);
      MakerOfHistory(capacity, feed, maxPosition, envs[..n]);
      PositionOfHistory(capacity, feed, maxPosition, envs[..n]);
      hide React, AfterPushes, PopUpTo, MM.OnBook, NetPosition;
      if s.batch != [] {
        var e := s.batch[0];
        if e.MarketData? {
          TickMovesMaker(s.sys, e.tick, envs[n]);
          MakerOneMore(TurnsOf(s0, envs[..n]), MM.Turn(envs[n].top, envs[n].elapsed, NetPosition(s.handled)));
        } else {
          OthersLeaveStrategies(s.sys, e, envs[n]);
        }
      }
      assert TurnsOf(s0, envs[..n]) + [] == TurnsOf(s0, envs[..n]);
    }
  }
}
