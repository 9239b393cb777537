/**
 What travels through the queue. Nothing is counted twice; without drops everything a component
 sends is handled in the order in which it was sent, so that what the strategies asked for and what
 the order manager let through can be read off the events handled and under way.
 */
module LoopFlow {
  import opened Events
  import opened EventQueues
  import opened EventLoops
  import opened LoopSteps
  import opened LoopHistory
  import LoopLifecycle
  import MM = MarketMakers
  import MO = Momentums
  import EX = MatchingEngines
  import OM = OrderManagers
  import PE = PnLEngines

  // Every push is accounted for

  lemma {:induction false} TicksCounted(q: Queue, ts: seq<Tick>)
    ensures var q' := EnqueueTicks(q, ts);
            q'.totalPushed - q.totalPushed == |ts| == (|q'.items| - |q.items|) + (q'.failed - q.failed) &&
            (|q.items| <= q.capacity ==> |q'.items| <= q'.capacity) && q'.capacity == q.capacity && q'.feed == q.feed
  {
    if ts != [] {
      TicksCounted(q, ts[..|ts| - 1]);
    }
  }

  /** Pushes counted and events gone in or lost agree, and the queue never overflows. */
  predicate Counted(q: Queue, gone: nat) {
    q.totalPushed == gone + |q.items| + q.failed && |q.items| <= q.capacity
  }

  lemma ArriveCounted(q: Queue, gone: nat)
    requires Counted(q, gone)
    ensures Counted(Arrive(q), gone)
  {
    if q.feed != [] {
      TicksCounted(q.(feed := q.feed[1..]), q.feed[0]);
    }
  }

  lemma {:induction false} PushesCounted(q: Queue, es: seq<Event>, gone: nat)
    requires Counted(q, gone)
    ensures Counted(AfterPushes(q, es), gone)
  {
    if es != [] {
      PushesCounted(q, es[..|es| - 1], gone);
      ArriveCounted(AfterPushes(q, es[..|es| - 1]), gone);
    }
  }

  lemma {:induction false} PopsCounted(q: Queue, n: nat, gone: nat)
    requires Counted(q, gone)
    ensures Counted(PopUpTo(q, n).1, gone + |PopUpTo(q, n).0|)
  {
    if n > 0 {
      var (es, q1) := PopUpTo(q, n - 1);
      PopsCounted(q, n - 1, gone);
      ArriveCounted(q1, gone + |es|);
    }
  }

  /** At every moment of every run the pushes counted so far, failed ones included, are the events
      handled, those under way and those lost. */
  lemma {:induction false} PushesAreCounted(capacity: nat, feed: seq<seq<Tick>>, maxPosition: real, envs: seq<Env>)
    ensures var s := Run(Start(capacity, feed, maxPosition), envs);
            s.queue.totalPushed == |s.handled| + |Underway(s)| + s.queue.failed && |s.queue.items| <= s.queue.capacity
  {
    if envs != [] {
      var n := |envs| - 1;
      var s := Run(Start(capacity, feed, maxPosition), envs[..n]);
      PushesAreCounted(capacity, feed, maxPosition, envs[..n]);
      hide React, AfterPushes, PopUpTo;
      if s.batch == [] {
        PopsCounted(s.queue, BATCH, |s.handled|);
      } else {
        PushesCounted(s.queue, Sent(s, envs[n]), |s.handled| + |s.batch|);
      }
    }
  }

  // Events of one kind

  datatype Kind = ByMaker | ByMomentum | Forwarded

  predicate IsKind(k: Kind, e: Event) {
    match k
    case ByMaker => e.CancelOrder? || (e.OrderRequest? && e.order.strategy == 1)
    case ByMomentum => e.OrderRequest? && e.order.strategy == 2
    case Forwarded => e.ValidatedOrder?
  }

  function Only(k: Kind, es: seq<Event>): seq<Event> {
    if es == [] then [] else Only(k, es[..|es| - 1]) + if IsKind(k, es[|es| - 1]) then [es[|es| - 1]] else []
  }

  lemma {:induction false} OnlyAppend(k: Kind, a: seq<Event>, b: seq<Event>)
    ensures Only(k, a + b) == Only(k, a) + Only(k, b)
  {
    if b == [] {
      assert a + b == a;
      assert Only(k, a) + [] == Only(k, a);
    } else {
      var n := |b| - 1;
      assert (a + b)[..|a + b| - 1] == a + b[..n] && (a + b)[|a + b| - 1] == b[n];
      OnlyAppend(k, a, b[..n]);
      var last := if IsKind(k, b[n]) then [b[n]] else [];
      assert Only(k, a + b) == Only(k, a + b[..n]) + last && Only(k, b) == Only(k, b[..n]) + last;
      hide Only;
      Associate(Only(k, a), Only(k, b[..n]), last);
    }
  }

  lemma {:induction false} NoneOf(k: Kind, es: seq<Event>)
    requires forall e :: e in es ==> !IsKind(k, e)
    ensures Only(k, es) == []
  {
    hide IsKind;
    if es != [] {
      assert es[|es| - 1] in es;
      NoneOf(k, es[..|es| - 1]);
    }
  }

  lemma {:induction false} AllOf(k: Kind, es: seq<Event>)
    requires forall i :: 0 <= i < |es| ==> IsKind(k, es[i])
    ensures Only(k, es) == es
  {
    hide IsKind;
    if es != [] {
      AllOf(k, es[..|es| - 1]);
      assert es == es[..|es| - 1] + [es[|es| - 1]];
    }
  }

  lemma OnlyOne(k: Kind, e: Event)
    ensures Only(k, [e]) == if IsKind(k, e) then [e] else []
  {
    assert [e][..0] == [];
  }

  lemma ExtendsOnly(k: Kind, before: seq<Event>, after: seq<Event>)
    requires Extends(before, after, [])
    ensures Only(k, after) == Only(k, before)
  {
    assert after == before + after[|before|..];
    NoneOf(k, after[|before|..]);
    OnlyAppend(k, before, after[|before|..]);
  }

  lemma PushOnly(k: Kind, q: Queue, e: Event)
    requires AfterPush(q, e).failed == q.failed
    ensures Only(k, AfterPush(q, e).items) == Only(k, q.items) + Only(k, [e])
  {
    ArriveExtends(q);
    hide Arrive, Only, Extends;
    ExtendsOnly(k, q.items, Arrive(q).items);
    OnlyAppend(k, Arrive(q).items, [e]);
  }

  lemma {:induction false} PushesOnly(k: Kind, q: Queue, es: seq<Event>)
    requires AfterPushes(q, es).failed == q.failed
    ensures Only(k, AfterPushes(q, es).items) == Only(k, q.items) + Only(k, es)
  {
    if es == [] {
      assert Only(k, q.items) + [] == Only(k, q.items);
    } else {
      var n := |es| - 1;
      var q1 := AfterPushes(q, es[..n]);
      PushesExtend(q, es[..n]);
      PushExtends(q1, es[n]);
      hide AfterPush, Extends, Only;
      PushesOnly(k, q, es[..n]);
      PushOnly(k, q1, es[n]);
      assert es == es[..n] + [es[n]];
      OnlyAppend(k, es[..n], [es[n]]);
      Associate(Only(k, q.items), Only(k, es[..n]), Only(k, [es[n]]));
    }
  }

  /** Everything of one kind that was handled or is under way, in order. */
  function Seen(k: Kind, s: Loop): seq<Event> {
    Only(k, s.handled + Underway(s))
  }

  /** A step that loses nothing adds what it sends. */
  lemma SeenGrows(k: Kind, s: Loop, env: Env)
    requires Step(s, env).queue.failed == s.queue.failed
    ensures Seen(k, Step(s, env)) == Seen(k, s) + if s.batch == [] then [] else Only(k, Sent(s, env))
  {
    hide React, AfterPushes, PopUpTo, Only;
    var s' := Step(s, env);
    OnlyAppend(k, s.handled, Underway(s));
    OnlyAppend(k, s'.handled, Underway(s'));
    if s.batch == [] {
      FillExtends(s);
      ExtendsOnly(k, Underway(s), Underway(s'));
      assert Seen(k, s) + [] == Seen(k, s);
    } else {
      SeenHandle(k, s, env);
    }
  }

  lemma SeenHandle(k: Kind, s: Loop, env: Env)
    requires s.batch != [] && Step(s, env).queue.failed == s.queue.failed
    ensures Seen(k, Step(s, env)) == Seen(k, s) + Only(k, Sent(s, env))
  {
    hide React, AfterPushes, Only;
    var e, rest, s' := s.batch[0], s.batch[1..], Step(s, env);
    PushesOnly(k, s.queue, Sent(s, env));
    var old_, new_ := s.queue.items, s'.queue.items;
    assert s.handled + Underway(s) == (s.handled + [e] + rest) + old_;
    assert s'.handled + Underway(s') == (s.handled + [e] + rest) + new_;
    OnlyAppend(k, s.handled + [e] + rest, old_);
    OnlyAppend(k, s.handled + [e] + rest, new_);
    hide Step;
    Associate(Only(k, s.handled + [e] + rest), Only(k, old_), Only(k, Sent(s, env)));
  }

  // What a tick sends

  /** The market maker's cancels and requests come first, then the momentum strategy's request, then
      the fills. */
  lemma TickSendsInOrder(c: System, t: Tick, env: Env)
    ensures var m := c.maker.(position := PE.TotalPosition(c.pnl.stats));
            var quotes := MM.OnBook(m, env.top, env.elapsed).1;
            var requests := MO.Requests(MO.OnPrice(c.momentum, t.price).1);
            var fills := EX.AsEvents(EX.OnTick(c.exchange, t.price).1);
            React(c, MarketData(t), env).1 == quotes + requests + fills &&
            (forall e :: e in quotes ==> IsKind(ByMaker, e)) &&
            (forall e :: e in requests ==> IsKind(ByMomentum, e)) &&
            (forall e :: e in fills ==> e.ExecutionReport?)
  {
    QuotesByMaker(c.maker.(position := PE.TotalPosition(c.pnl.stats)), env.top, env.elapsed);
    RequestsByMomentum(c.momentum, t.price);
    hide MM.OnBook, MO.OnPrice, EX.OnTick, PE.TotalPosition;
  }

  lemma QuotesByMaker(m: MM.MarketMaker, top: Option<MM.TopOfBook>, elapsed: bool)
    ensures forall e :: e in MM.OnBook(m, top, elapsed).1 ==> IsKind(ByMaker, e)
  {
    hide MM.BidQuote, MM.AskQuote, MM.Cancels, MM.Requotes;
    LoopLifecycle.CancelsMembers(m.active);
  }

  lemma RequestsByMomentum(m: MO.Momentum, price: real)
    ensures forall e :: e in MO.Requests(MO.OnPrice(m, price).1) ==> IsKind(ByMomentum, e)
  {
    hide MO.Updated, MO.Bullish, MO.Bearish;
  }

  lemma OnlyOfTick(c: System, t: Tick, env: Env)
    ensures var out := React(c, MarketData(t), env).1;
            var m := c.maker.(position := PE.TotalPosition(c.pnl.stats));
            Only(ByMaker, out) == MM.OnBook(m, env.top, env.elapsed).1 &&
            Only(ByMomentum, out) == MO.Requests(MO.OnPrice(c.momentum, t.price).1) && Only(Forwarded, out) == []
  {
    TickSendsInOrder(c, t, env);
    var m := c.maker.(position := PE.TotalPosition(c.pnl.stats));
    var quotes := MM.OnBook(m, env.top, env.elapsed).1;
    var requests := MO.Requests(MO.OnPrice(c.momentum, t.price).1);
    var fills := EX.AsEvents(EX.OnTick(c.exchange, t.price).1);
    hide React, MM.OnBook, MO.OnPrice, EX.OnTick, EX.AsEvents, MO.Requests, PE.TotalPosition, Only;
    AllOf(ByMaker, quotes);
    AllOf(ByMomentum, requests);
    NoneOf(ByMomentum, quotes);
    NoneOf(ByMaker, requests);
    NoneOf(Forwarded, quotes + requests + fills);
    NoneOf(ByMaker, fills);
    NoneOf(ByMomentum, fills);
    OnlyAppend(ByMaker, quotes + requests, fills);
    OnlyAppend(ByMaker, quotes, requests);
    OnlyAppend(ByMomentum, quotes + requests, fills);
    OnlyAppend(ByMomentum, quotes, requests);
    assert quotes + [] + [] == quotes && [] + requests + [] == requests;
  }

  lemma OnlyOfOthers(k: Kind, c: System, e: Event, env: Env)
    requires !e.MarketData?
    ensures Only(k, React(c, e, env).1) ==
            if k.Forwarded? && e.OrderRequest? && OM.Validates(c.risk, e.order) then [ValidatedOrder(e.order)] else []
  {
    match e
    case OrderRequest(o) => OnlyOne(k, ValidatedOrder(o));
    case ValidatedOrder(o) => OnlyOne(k, ExecutionReport(EX.Process(c.exchange, o).1));
    case CancelOrder(id) => OnlyOne(k, ExecutionReport(EX.Cancel(c.exchange, id).1));
    case ExecutionReport(_) =>
      hide PE.Mark, PE.OnFill;
  }

  lemma RequestsAppend(a: seq<Order>, b: seq<Order>)
    ensures MO.Requests(a + b) == MO.Requests(a) + MO.Requests(b)
  {
  }

  // Whole runs

  /** Without drops, what was handled and is under way from each strategy is, in order, what it sent
      when shown the ticks handled one by one. */
  lemma {:induction false} StrategiesAreHeard(capacity: nat, feed: seq<seq<Tick>>, maxPosition: real, envs: seq<Env>)
    requires Run(Start(capacity, feed, maxPosition), envs).queue.failed == 0
    ensures var s0 := Start(capacity, feed, maxPosition);
            var s := Run(s0, envs);
            Seen(ByMaker, s) == MM.Run(TurnsOf(s0, envs)).1 &&
            Seen(ByMomentum, s) == MO.Requests(MO.Run(PricesIn(s.handled)).1)
  {
    if envs != [] {
      var n := |envs| - 1;
      var s0 := Start(capacity, feed, maxPosition);
      var s := Run(s0, envs[..n]);
      LoopLifecycle.StepIsMonotone(s, envs[n]);
      StrategiesAreHeard(capacity, feed, maxPosition, envs[..n]);
      SeenGrows(ByMaker, s, envs[n]);
      SeenGrows(ByMomentum, s, envs[n]);
      MakerOfHistory(capacity, feed, maxPosition, envs[..n]);
      MomentumOfHistory(capacity, feed, maxPosition, envs[..n]);
      PositionOfHistory(capacity, feed, maxPosition, envs[..n]);
      MakerSent(s0, envs, s);
      MomentumSent(s, envs[n]);
      hide Step, Seen, Only, TurnsOf, MM.Run, MO.Run, NetPosition;
    }
  }

  /** What the last step of a run adds to what the market maker sent ... */
  lemma {:induction false} MakerSent(s0: Loop, envs: seq<Env>, s: Loop)
    requires envs != [] && s == Run(s0, envs[..|envs| - 1])
    requires s.sys.maker == MM.Run(TurnsOf(s0, envs[..|envs| - 1])).0
    requires PE.TotalPosition(s.sys.pnl.stats) == NetPosition(s.handled)
    ensures MM.Run(TurnsOf(s0, envs)).1 == MM.Run(TurnsOf(s0, envs[..|envs| - 1])).1 +
            if s.batch == [] then [] else Only(ByMaker, Sent(s, envs[|envs| - 1]))
  {
    var n := |envs| - 1;
    var env, turns := envs[n], TurnsOf(s0, envs[..n]);
    var sent := if s.batch == [] then [] else Only(ByMaker, Sent(s, env));
    if s.batch != [] && s.batch[0].MarketData? {
      var t := MM.Turn(env.top, env.elapsed, NetPosition(s.handled));
      assert TurnsOf(s0, envs) == turns + [t];
      OnlyOfTick(s.sys, s.batch[0].tick, env);
      MakerOneMore(turns, t);
    } else {
      assert TurnsOf(s0, envs) == turns + [] == turns;
      if s.batch != [] {
        OnlyOfOthers(ByMaker, s.sys, s.batch[0], env);
      }
      assert sent == [];
    }
    hide React, MM.OnBook, NetPosition, Only, Run, MM.Run, TurnsOf;
  }

  /** ... and to what the momentum strategy sent. */
  lemma MomentumSent(s: Loop, env: Env)
    requires s.sys.momentum == MO.Run(PricesIn(s.handled)).0
    ensures MO.Requests(MO.Run(PricesIn(Step(s, env).handled)).1) ==
            MO.Requests(MO.Run(PricesIn(s.handled)).1) +
            if s.batch == [] then [] else Only(ByMomentum, Sent(s, env))
  {
    var prices := PricesIn(s.handled);
    hide React, AfterPushes, PopUpTo, MO.OnPrice, Only, MO.Run;
    if s.batch != [] {
      var e := s.batch[0];
      assert (s.handled + [e])[..|s.handled|] == s.handled;
      if e.MarketData? {
        OnlyOfTick(s.sys, e.tick, env);
        MomentumOneMore(prices, e.tick.price);
        RequestsAppend(MO.Run(prices).1, MO.OnPrice(s.sys.momentum, e.tick.price).1);
      } else {
        OnlyOfOthers(ByMomentum, s.sys, e, env);
        assert prices + [] == prices;
      }
    }
  }

  function AsForwarded(os: seq<Order>): (es: seq<Event>)
    ensures |es| == |os| && forall i :: 0 <= i < |os| ==> es[i] == ValidatedOrder(os[i])
  {
    seq(|os|, i requires 0 <= i < |os| => ValidatedOrder(os[i]))
  }

  /** Without drops, the orders handled by the exchange and on their way to it are, in order, those
      accepted. */
  lemma {:induction false} AcceptedAreForwarded(capacity: nat, feed: seq<seq<Tick>>, maxPosition: real, envs: seq<Env>)
    requires Run(Start(capacity, feed, maxPosition), envs).queue.failed == 0
    ensures var s := Run(Start(capacity, feed, maxPosition), envs);
            Seen(Forwarded, s) == AsForwarded(s.sys.log.accepted) == AsForwarded(AcceptedIn(s.handled, maxPosition))
  {
    AcceptedInRun(capacity, feed, maxPosition, envs);
    if envs != [] {
      var n := |envs| - 1;
      var s := Run(Start(capacity, feed, maxPosition), envs[..n]);
      LoopLifecycle.StepIsMonotone(s, envs[n]);
      AcceptedAreForwarded(capacity, feed, maxPosition, envs[..n]);
      hide Step, AcceptedIn, Seen;
      ForwardStep(s, envs[n]);
    }
  }

  lemma {:induction false} ForwardStep(s: Loop, env: Env)
    requires Seen(Forwarded, s) == AsForwarded(s.sys.log.accepted) && Step(s, env).queue.failed == s.queue.failed
    ensures Seen(Forwarded, Step(s, env)) == AsForwarded(Step(s, env).sys.log.accepted)
  {
    hide Seen, AfterPushes, PopUpTo, React, Only, AsForwarded;
    var before, after := s.sys.log.accepted, Step(s, env).sys.log.accepted;
    SeenGrows(Forwarded, s, env);
    if s.batch == [] {
      assert after == before;
      assert Seen(Forwarded, s) + [] == Seen(Forwarded, s);
    } else {
      ForwardsAccepted(s.sys, s.batch[0], env);
      assert after == React(s.sys, s.batch[0], env).0.log.accepted;
      hide Step;
      ForwardedAppend(before, after[|before|..]);
      assert after == before + after[|before|..];
    }
  }

  lemma ForwardedAppend(a: seq<Order>, b: seq<Order>)
    ensures AsForwarded(a + b) == AsForwarded(a) + AsForwarded(b)
  {
  }

  lemma ForwardsAccepted(c: System, e: Event, env: Env)
    ensures var (c', out) := React(c, e, env);
            c.log.accepted <= c'.log.accepted &&
            Only(Forwarded, out) == AsForwarded(c'.log.accepted[|c.log.accepted|..])
  {
    if e.MarketData? {
      OnlyOfTick(c, e.tick, env);
    } else {
      OnlyOfOthers(Forwarded, c, e, env);
    }
    hide Only, StrategiesOnTick, EX.OnTick, EX.Process, PE.Mark, PE.OnFill;
  }
}
