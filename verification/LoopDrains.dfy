/**
 The loop runs dry: every handled event uses up work, whatever the book, the clock and the feed
 do, and whether or not pushes fail. Runs are runs of the loop of main.cpp, at any moment.
 */
module LoopDrains {
  import opened Events
  import opened EventQueues
  import opened EventLoops
  import opened LoopSteps
  import opened LoopMeasures
  import MM = MarketMakers
  import MO = Momentums
  import EX = MatchingEngines

  // What the strategies send stays within bounds

  /** The only two order quantities the strategies use. */
  predicate Sized(qty: real) {
    qty == MM.LOT || qty == MO.LOT
  }

  predicate EventSized(e: Event) {
    match e
    case MarketData(_) => true
    case OrderRequest(o) => Sized(o.quantity)
    case ValidatedOrder(o) => Sized(o.quantity)
    case CancelOrder(_) => true
    case ExecutionReport(r) =>
      (r.status.Filled? ==> Sized(r.lastQty)) && (r.status.Rejected? ==> Sized(r.leavesQty))
  }

  ghost predicate AllSized(es: seq<Event>) {
    forall e :: e in es ==> EventSized(e)
  }

  ghost predicate RestingSized(rs: seq<Order>) {
    forall o :: o in rs ==> Sized(o.quantity)
  }

  ghost predicate SystemOk(c: System) {
    |c.maker.active| <= 2 && RestingSized(c.exchange.resting)
  }

  ghost predicate Basic(s: Loop) {
    SystemOk(s.sys) && AllSized(Underway(s))
  }

  lemma SizedNonNegative(m: Measure, es: seq<Event>)
    requires AllSized(es)
    ensures NonNegative(m, es)
  {
  }

  lemma {:induction false} RestNonNegative(m: Measure, rs: seq<Order>)
    requires RestingSized(rs)
    ensures RestTotal(m, rs) >= 0.0
  {
    if rs != [] {
      assert rs[|rs| - 1] in rs;
      RestNonNegative(m, rs[..|rs| - 1]);
    }
  }

  lemma SumNonNegative(m: Measure, s: Loop)
    requires Basic(s)
    ensures Sum(m, s) >= 0.0
  {
    SizedNonNegative(m, Underway(s));
    TotalNonNegative(m, Underway(s));
    RestNonNegative(m, s.sys.exchange.resting);
  }

  lemma {:induction false} CancelsWeight(ids: seq<nat>)
    ensures Total(Weight, MM.Cancels(ids)) == 2.0 * |ids| as real && AllSized(MM.Cancels(ids))
  {
    if ids != [] {
      var n := |ids| - 1;
      CancelsWeight(ids[..n]);
      TotalAppend(Weight, MM.Cancels(ids[..n]), [CancelOrder(ids[n])]);
      TotalOne(Weight, CancelOrder(ids[n]));
    }
  }

  lemma SubmitIfWeight(allowed: bool, m: MM.MarketMaker, side: Side, price: real)
    ensures var (m', es) := MM.SubmitIf(allowed, m, side, price);
            Total(Weight, es) <= 4.0 && AllSized(es) && |m'.active| <= |m.active| + 1
  {
    if allowed {
      TotalOne(Weight, MM.Submitted(m, side, price).1);
    }
  }

  /** A quote costs at most two cancels and two requests. */
  lemma QuoteWeight(m: MM.MarketMaker, top: Option<MM.TopOfBook>, elapsed: bool)
    requires |m.active| <= 2
    ensures var (m', es) := MM.OnBook(m, top, elapsed);
            Total(Weight, es) <= 12.0 && AllSized(es) && |m'.active| <= 2
  {
    if top.Some? && elapsed && MM.Quotable(top.value) {
      var bid := MM.BidQuote(m.position, top.value) as real;
      var ask := MM.AskQuote(m.position, top.value) as real;
      hide MM.BidQuote, MM.AskQuote, MM.Cancels;
      var (m1, e1) := MM.SubmitIf(m.position < MM.MAX_POSITION, m.(active := []), Buy, bid);
      var (m2, e2) := MM.SubmitIf(m.position > -MM.MAX_POSITION, m1, Sell, ask);
      CancelsWeight(m.active);
      SubmitIfWeight(m.position < MM.MAX_POSITION, m.(active := []), Buy, bid);
      SubmitIfWeight(m.position > -MM.MAX_POSITION, m1, Sell, ask);
      hide MM.SubmitIf;
      TotalAppend(Weight, MM.Cancels(m.active), e1);
      TotalAppend(Weight, MM.Cancels(m.active) + e1, e2);
    }
  }

  lemma TrendWeight(m: MO.Momentum, price: real)
    ensures Total(Weight, MO.Requests(MO.OnPrice(m, price).1)) <= 4.0
    ensures AllSized(MO.Requests(MO.OnPrice(m, price).1))
  {
    hide MO.Updated, MO.Bullish, MO.Bearish;
    var os := MO.OnPrice(m, price).1;
    if os != [] {
      assert MO.Requests(os) == [OrderRequest(os[0])];
      TotalOne(Weight, OrderRequest(os[0]));
    }
  }

  lemma StrategiesWeight(c: System, price: real, env: Env)
    requires SystemOk(c)
    ensures var (maker, momentum, sent) := StrategiesOnTick(c, price, env);
            Total(Weight, sent) <= 16.0 && AllSized(sent) && |maker.active| <= 2
  {
    var m := c.maker.(position := EventLoops.PE.TotalPosition(c.pnl.stats));
    QuoteWeight(m, env.top, env.elapsed);
    TrendWeight(c.momentum, price);
    hide MM.OnBook, MO.OnPrice;
    TotalAppend(Weight, MM.OnBook(m, env.top, env.elapsed).1, MO.Requests(MO.OnPrice(c.momentum, price).1));
  }

  lemma ExchangeSized(x: EX.Exchange, price: real)
    requires RestingSized(x.resting)
    ensures var (x', fills) := EX.OnTick(x, price); RestingSized(x'.resting) && AllSized(EX.AsEvents(fills))
  {
    var bid, ask := price - EX.SPREAD / 2.0, price + EX.SPREAD / 2.0;
    EX.SelectMembers(x.resting, bid, ask, false);
    EX.SelectMembers(x.resting, bid, ask, true);
    var filled := EX.Select(x.resting, bid, ask, true);
    hide EX.Select;
    forall e | e in EX.AsEvents(EX.Fills(filled, bid, ask, x.nextTradeId)) ensures EventSized(e) {
      var i :| 0 <= i < |filled| && e == EX.AsEvents(EX.Fills(filled, bid, ask, x.nextTradeId))[i];
      assert filled[i] in filled;
    }
  }

  lemma ReactSized(c: System, e: Event, env: Env)
    requires SystemOk(c) && EventSized(e)
    ensures var (c', out) := React(c, e, env); SystemOk(c') && AllSized(out)
  {
    match e
    case MarketData(t) =>
      StrategiesWeight(c, t.price, env);
      ExchangeSized(c.exchange, t.price);
      hide StrategiesOnTick, EX.OnTick;
    case OrderRequest(o) =>
    case ValidatedOrder(o) =>
    case CancelOrder(id) =>
    case ExecutionReport(r) =>
      hide EventLoops.PE.Mark, EventLoops.PE.OnFill;
  }

  lemma StepKeepsBasic(s: Loop, env: Env)
    requires Basic(s)
    ensures Basic(Step(s, env))
    ensures s.batch != [] ==> EventSized(s.batch[0]) && forall m :: NonNegative(m, Sent(s, env))
  {
    StepMembers(s, env);
    hide React, SystemOk, EventSized, AfterPushes, PopUpTo, Value;
    if s.batch != [] {
      assert s.batch[0] in Underway(s);
      ReactSized(s.sys, s.batch[0], env);
      forall m ensures NonNegative(m, Sent(s, env)) {
        SizedNonNegative(m, Sent(s, env));
      }
    }
    forall e | e in Underway(Step(s, env)) ensures EventSized(e) {
      TickSized(e);
    }
  }

  lemma TickSized(e: Event)
    ensures e.MarketData? ==> EventSized(e)
  {
  }

  // Draining

  /** Handling any event uses up work. */
  lemma HandlingCostsWeight(c: System, e: Event, env: Env)
    requires SystemOk(c)
    ensures Gain(Weight, c, e, env) <= -1.0
  {
    match e
    case MarketData(t) =>
      GainOfTick(Weight, c, t, env);
      StrategiesWeight(c, t.price, env);
    case OrderRequest(o) =>
      GainOfRequest(Weight, c, o, env);
    case ValidatedOrder(o) =>
      GainOfOrder(Weight, c, o, env);
    case CancelOrder(id) =>
      GainOfCancel(Weight, c, id, env);
    case ExecutionReport(r) =>
      GainOfReport(Weight, c, r, env);
  }

  lemma WeightStep(s: Loop, env: Env)
    requires Basic(s)
    ensures var s' := Step(s, env);
            Basic(s') && s'.queue.arrived >= s.queue.arrived &&
            s'.handled == s.handled + (if s.batch == [] then [] else [s.batch[0]]) &&
            |s'.handled| as real + Sum(Weight, s') - 17.0 * s'.queue.arrived as real
            <= |s.handled| as real + Sum(Weight, s) - 17.0 * s.queue.arrived as real
  {
    StepKeepsBasic(s, env);
    StepEffect(Weight, s, env);
    hide React, AfterPushes, PopUpTo, SystemOk, AllSized, Gain, Sum;
    if s.batch != [] {
      HandlingCostsWeight(s.sys, s.batch[0], env);
    }
  }

  /** At every moment of every run the work done plus the work left is at most 17 per tick. */
  lemma {:induction false} WorkIsPaidFor(capacity: nat, feed: seq<seq<Tick>>, maxPosition: real, envs: seq<Env>)
    ensures var s := Run(Start(capacity, feed, maxPosition), envs);
            Basic(s) && |s.handled| as real + Sum(Weight, s) <= 17.0 * s.queue.arrived as real
  {
    if envs != [] {
      var n := |envs| - 1;
      WorkIsPaidFor(capacity, feed, maxPosition, envs[..n]);
      WeightStep(Run(Start(capacity, feed, maxPosition), envs[..n]), envs[n]);
      hide Step;
    }
  }

  /** n accepted ticks cause at most 17 n handled events, among which are the ticks themselves. */
  lemma SeventeenEventsPerTick(capacity: nat, feed: seq<seq<Tick>>, maxPosition: real, envs: seq<Env>)
    ensures var s := Run(Start(capacity, feed, maxPosition), envs); |s.handled| <= 17 * s.queue.arrived
  {
    WorkIsPaidFor(capacity, feed, maxPosition, envs);
    SumNonNegative(Weight, Run(Start(capacity, feed, maxPosition), envs));
  }

  // Running empty

  lemma {:induction false} PushesKeepQuiet(q: Queue, es: seq<Event>)
    requires q.feed == []
    ensures AfterPushes(q, es).feed == [] && AfterPushes(q, es).arrived == q.arrived
  {
    if es != [] {
      PushesKeepQuiet(q, es[..|es| - 1]);
    }
  }

  /** Without arrivals the batch is filled from what is in the queue. */
  lemma {:induction false} PopsKeepQuiet(q: Queue, n: nat)
    requires q.feed == []
    ensures var (es, q') := PopUpTo(q, n);
            q' == q.(items := q'.items) && es + q'.items == q.items &&
            |es| == if |q.items| < n then |q.items| else n
  {
    if n == 0 {
      assert [] + q.items == q.items;
    } else {
      var (es, q1) := PopUpTo(q, n - 1);
      PopsKeepQuiet(q, n - 1);
      if q1.items != [] {
        assert es + q1.items == (es + [q1.items[0]]) + q1.items[1..];
      }
    }
  }

  ghost predicate Quiet(s: Loop) {
    Basic(s) && s.queue.feed == []
  }

  /** With no ticks to come every step that handles an event leaves less to do. */
  lemma QuietStep(s: Loop, env: Env)
    requires Quiet(s)
    ensures var s' := Step(s, env);
            Quiet(s') &&
            if s.batch == [] then Underway(s') == s.queue.items && (s'.batch == [] <==> s.queue.items == [])
            else Sum(Weight, s') <= Sum(Weight, s) - 1.0
  {
    WeightStep(s, env);
    hide React, Basic, AfterPushes, PopUpTo;
    if s.batch == [] {
      PopsKeepQuiet(s.queue, BATCH);
    } else {
      PushesKeepQuiet(s.queue, Sent(s, env));
    }
    hide Sum;
  }

  /** Handling a batch leaves as much less to do as it holds events. */
  lemma {:induction false} QuietBatch(s: Loop, envs: seq<Env>, i: nat)
    requires Quiet(s) && i <= |s.batch| && i <= |envs|
    ensures var s' := Run(s, envs[..i]); Quiet(s') && Sum(Weight, s') <= Sum(Weight, s) - i as real
  {
    hide Step, Sum, Quiet;
    if i == 0 {
      assert envs[..0] == [];
    } else {
      var s1 := Run(s, envs[..i - 1]);
      QuietBatch(s, envs, i - 1);
      RunHandles(s, envs, i - 1);
      assert envs[..i][..i - 1] == envs[..i - 1];
      assert Run(s, envs[..i]) == Step(s1, envs[i - 1]) && s1.batch != [];
      hide Run;
      QuietStep(s1, envs[i - 1]);
    }
  }

  lemma QuietTurn(s: Loop, envs: seq<Env>)
    requires Quiet(s) && s.batch == [] && |envs| >= BATCH
    ensures var s' := AfterTurn(s, envs);
            Quiet(s') && s'.batch == [] &&
            if s.queue.items == [] then s'.queue.items == [] else Sum(Weight, s') <= Sum(Weight, s) - 1.0
  {
    var found := |Fill(s).batch|;
    TurnIsSteps(s, envs);
    QuietStep(s, envs[0]);
    QuietBatch(Fill(s), envs, found);
    assert Underway(s) == s.queue.items;
    hide Fill, Run, Step, Quiet, Total, RestTotal;
    if found == 0 {
      assert envs[..0] == [];
      assert Underway(Fill(s)) == Fill(s).queue.items;
      EmptyRun(Fill(s));
    }
  }

  /** With no ticks to come a turn handles the events waiting, in order, up to four of them. */
  lemma TurnHandlesFour(s: Loop, envs: seq<Env>)
    requires s.queue.feed == [] && s.batch == [] && |envs| >= 4
    ensures AfterTurn(s, envs).handled ==
            s.handled + s.queue.items[..if |s.queue.items| < 4 then |s.queue.items| else 4]
  {
    TurnIsSteps(s, envs);
    PopsKeepQuiet(s.queue, BATCH);
    hide PopUpTo, AfterTurn;
    var es := Fill(s).batch;
    assert es == (es + Fill(s).queue.items)[..|es|];
  }

  lemma EmptyRun(s: Loop)
    ensures Run(s, []) == s
  {
  }

  lemma {:induction false} WeightOfOne(es: seq<Event>)
    requires es != []
    ensures Total(Weight, es) >= 1.0
  {
    if |es| > 1 {
      WeightOfOne(es[..|es| - 1]);
    } else {
      TotalOne(Weight, es[0]);
      assert es == [es[0]];
    }
  }

  lemma {:induction false} QuietTurns(s: Loop, turns: seq<seq<Env>>)
    requires (forall t :: t in turns ==> |t| >= BATCH) && Quiet(s) && s.batch == []
    ensures var s' := AfterTurns(s, turns);
            Quiet(s') && s'.batch == [] &&
            (s'.queue.items == [] || Sum(Weight, s') <= Sum(Weight, s) - |turns| as real)
  {
    hide AfterTurn, Sum, Quiet;
    if turns != [] {
      var n := |turns| - 1;
      var s1 := AfterTurns(s, turns[..n]);
      assert turns[n] in turns && AfterTurns(s, turns) == AfterTurn(s1, turns[n]);
      QuietTurns(s, turns[..n]);
      hide AfterTurns;
      QuietTurn(s1, turns[n]);
    }
  }

  /** Once the feed is silent the queue is empty after at most as many turns as there is work. */
  lemma {:induction false} QueueRunsEmpty(s: Loop, turns: seq<seq<Env>>)
    requires Basic(s) && s.queue.feed == [] && s.batch == []
    requires (forall t :: t in turns ==> |t| >= BATCH) && |turns| as real >= Sum(Weight, s)
    ensures Underway(AfterTurns(s, turns)) == []
  {
    var s' := AfterTurns(s, turns);
    QuietTurns(s, turns);
    if Underway(s') != [] {
      WeightOfOne(Underway(s'));
      RestNonNegative(Weight, s'.sys.exchange.resting);
    }
  }
}
