/**
 The same loop with a book that is fed every tick. The market maker requotes whenever the quantities
 at the best prices change; each time the old quotes are reported cancelled and stay at the exchange,
 and the limit is checked against a position that is still zero. One falling tick then fills all its
 buys. All trades before it are at one price, so the book shows that price on both sides, and the
 quotes follow the quantity of the last trade.
 */
module LoopOverrun {
  import opened Events
  import opened EventLoops
  import opened LoopWiring
  import opened LoopQuiet
  import opened MapSums
  import EX = MatchingEngines
  import MM = MarketMakers
  import MO = Momentums
  import OB = OrderBooks

  // The scene

  const PRICE := 100.0
  const BID := 99.75
  const ASK := 100.25

  /** The trades: one that sets the bid, and then takers of alternating quantities. */
  const OPENING := Tick(PRICE, 1.0, true)

  function QuantityFor(n: nat): real {
    if n % 2 == 0 then 1.0 else 3.0
  }

  function TradeFor(n: nat): Tick {
    Tick(PRICE, QuantityFor(n), false)
  }

  /** What the book shows then. */
  function BookFor(n: nat): MM.TopOfBook {
    MM.Top(PRICE, 1.0, PRICE, QuantityFor(n))
  }

  function EnvFor(n: nat): Env {
    Env(Some(BookFor(n)), true)
  }

  /** The maker's quotes, as orders. */
  function BidFor(n: nat): real {
    if n % 2 == 0 then 99.0 else 98.0
  }

  function BuyFor(n: nat, id: nat): Order {
    MM.QuoteOrder(id, Buy, BidFor(n))
  }

  function SellFor(id: nat): Order {
    MM.QuoteOrder(id, Sell, 101.0)
  }

  /** A resting lot away from the price, on either side. */
  predicate Away(o: Order) {
    o.kind.Limit? && o.quantity == MM.LOT && if o.side.Buy? then 98.0 <= o.price <= 99.0 else o.price >= 101.0
  }

  ghost predicate AllAway(rs: seq<Order>) {
    forall o :: o in rs ==> Away(o)
  }

  function Buys(os: seq<Order>): nat {
    if os == [] then 0 else Buys(os[..|os| - 1]) + if os[|os| - 1].side.Buy? then 1 else 0
  }

  predicate Flat(m: MO.Momentum) {
    !m.open && (m.count == 0 || m.shortEma == PRICE == m.longEma)
  }

  ghost predicate Untouched(c: System) {
    c.risk.position == 0.0 && c.risk.maxPosition >= MM.LOT && c.pnl.stats == map[]
  }

  /** Only what rests and what was accepted has changed, besides the order manager's table, the
      marks and the counters. */
  ghost predicate Keeps(c: System, c': System, rested: seq<Order>, accepted: seq<Order>) {
    && c'.maker == c.maker && c'.momentum == c.momentum && c'.risk == c.risk && c'.pnl.stats == c.pnl.stats
    && c'.exchange.bestBid == c.exchange.bestBid && c'.exchange.bestAsk == c.exchange.bestAsk
    && c'.exchange.resting == c.exchange.resting + rested
    && c'.log.accepted == c.log.accepted + accepted
  }

  lemma KeepsOn(c0: System, c1: System, c2: System, r1: seq<Order>, r2: seq<Order>, a1: seq<Order>, a2: seq<Order>)
    requires Keeps(c0, c1, r1, a1) && Keeps(c1, c2, r2, a2)
    ensures Keeps(c0, c2, r1 + r2, a1 + a2)
  {
    assert c0.exchange.resting + r1 + r2 == c0.exchange.resting + (r1 + r2);
    assert c0.log.accepted + a1 + a2 == c0.log.accepted + (a1 + a2);
  }

  // Events other than ticks

  predicate Harmless(e: Event) {
    e.ExecutionReport? && !e.report.status.Filled?
  }

  ghost predicate AllHarmless(es: seq<Event>) {
    forall e :: e in es ==> Harmless(e)
  }

  lemma CancelKeeps(c: System, id: nat, env: Env)
    ensures var (c', out) := React(c, CancelOrder(id), env);
            Keeps(c, c', [], []) && |out| == 1 && AllHarmless(out)
  {
  }

  lemma ReportKeeps(c: System, e: Event, env: Env)
    requires Harmless(e) && c.pnl.stats == map[]
    ensures var (c', out) := React(c, e, env); Keeps(c, c', [], []) && out == []
  {
    hide EventLoops.PE.OnFill;
    assert EventLoops.PE.MarkSome(map[], {}, e.report.lastPrice) == map[];
  }

  lemma RequestKeeps(c: System, o: Order, env: Env)
    requires Untouched(c) && Away(o)
    ensures var (c', out) := React(c, OrderRequest(o), env);
            Keeps(c, c', [], [o]) && out == [ValidatedOrder(o)]
  {
  }

  lemma OrderKeeps(c: System, o: Order, env: Env)
    requires Away(o) && c.exchange.bestBid == BID && c.exchange.bestAsk == ASK
    ensures var (c', out) := React(c, ValidatedOrder(o), env);
            Keeps(c, c', [o], []) && |out| == 1 && AllHarmless(out)
  {
  }

  lemma {:induction false} AbsorbCancels(c: System, ids: seq<nat>, env: Env)
    ensures var (c', out) := Absorb(c, MM.Cancels(ids), env);
            Keeps(c, c', [], []) && |out| == |ids| && AllHarmless(out)
  {
    if ids != [] {
      var n := |ids| - 1;
      var c1 := Absorb(c, MM.Cancels(ids[..n]), env).0;
      AbsorbCancels(c, ids[..n], env);
      AbsorbAppend(c, MM.Cancels(ids[..n]), [CancelOrder(ids[n])], env);
      AbsorbOne(c1, CancelOrder(ids[n]), env);
      CancelKeeps(c1, ids[n], env);
      hide React, Absorb;
      KeepsOn(c, c1, Absorb(c, MM.Cancels(ids), env).0, [], [], [], []);
    }
  }

  lemma {:induction false} AbsorbReports(c: System, es: seq<Event>, env: Env)
    requires AllHarmless(es) && c.pnl.stats == map[]
    ensures var (c', out) := Absorb(c, es, env); Keeps(c, c', [], []) && out == []
  {
    if es != [] {
      var n := |es| - 1;
      assert es[n] in es;
      var c1 := Absorb(c, es[..n], env).0;
      AbsorbReports(c, es[..n], env);
      ReportKeeps(c1, es[n], env);
      hide React, Harmless;
      KeepsOn(c, c1, Absorb(c, es, env).0, [], [], [], []);
    }
  }

  /** Two orders requested: both accepted, both forwarded. */
  lemma AbsorbRequests(c: System, b: Order, s: Order, env: Env)
    requires Untouched(c) && Away(b) && Away(s)
    ensures var (c', out) := Absorb(c, [OrderRequest(b), OrderRequest(s)], env);
            Keeps(c, c', [], [b, s]) && out == [ValidatedOrder(b), ValidatedOrder(s)]
  {
    hide React;
    var e1, e2 := OrderRequest(b), OrderRequest(s);
    assert [e1] + [e2] == [e1, e2];
    AbsorbAppend(c, [e1], [e2], env);
    AbsorbOne(c, e1, env);
    RequestKeeps(c, b, env);
    var c1 := React(c, e1, env).0;
    AbsorbOne(c1, e2, env);
    RequestKeeps(c1, s, env);
    KeepsOn(c, c1, React(c1, e2, env).0, [], [], [b], [s]);
    assert [b] + [s] == [b, s];
  }

  /** Two orders at the exchange: both rest. */
  lemma AbsorbOrders(c: System, b: Order, s: Order, env: Env)
    requires Away(b) && Away(s) && c.exchange.bestBid == BID && c.exchange.bestAsk == ASK
    ensures var (c', out) := Absorb(c, [ValidatedOrder(b), ValidatedOrder(s)], env);
            Keeps(c, c', [b, s], []) && |out| == 2 && AllHarmless(out)
  {
    hide React;
    var e1, e2 := ValidatedOrder(b), ValidatedOrder(s);
    assert [e1] + [e2] == [e1, e2];
    AbsorbAppend(c, [e1], [e2], env);
    AbsorbOne(c, e1, env);
    OrderKeeps(c, b, env);
    var c1 := React(c, e1, env).0;
    AbsorbOne(c1, e2, env);
    OrderKeeps(c1, s, env);
    KeepsOn(c, c1, React(c1, e2, env).0, [b], [s], [], []);
    assert [b] + [s] == [b, s];
  }

  // Ticks

  lemma {:induction false} NothingCrosses(rs: seq<Order>)
    requires AllAway(rs)
    ensures EX.Select(rs, BID, ASK, true) == [] && EX.Select(rs, BID, ASK, false) == rs
  {
    if rs != [] {
      var n := |rs| - 1;
      assert rs[n] in rs;
      NothingCrosses(rs[..n]);
      assert rs == rs[..n] + [rs[n]];
    }
  }

  lemma FlatStaysFlat(m: MO.Momentum)
    requires Flat(m)
    ensures var (m', os) := MO.OnPrice(m, PRICE); Flat(m') && os == []
  {
    assert PRICE * MO.ALPHA_10 + PRICE * (1.0 - MO.ALPHA_10) == PRICE;
    assert PRICE * MO.ALPHA_50 + PRICE * (1.0 - MO.ALPHA_50) == PRICE;
  }

  /** What the last quotes were after `n` of them. */
  ghost predicate QuotedSoFar(m: MM.MarketMaker, n: nat) {
    && |m.active| <= 2
    && m.lastBid == if n == 0 then 0.0 else BidFor(n - 1)
  }

  lemma MakerRequotes(m: MM.MarketMaker, n: nat)
    requires QuotedSoFar(m, n) && m.position == 0.0
    ensures var (m', es) := MM.OnBook(m, Some(BookFor(n)), true);
            QuotedSoFar(m', n + 1) &&
            es == MM.Cancels(m.active) + [OrderRequest(BuyFor(n, m.nextId)), OrderRequest(SellFor(m.nextId + 1))]
  {
    hide MM.Cancels;
    var top := BookFor(n);
    QuotesAre(n);
    assert n > 0 ==> BidFor(n - 1) != BidFor(n);
    hide MM.BidQuote, MM.AskQuote;
    var b, s := OrderRequest(BuyFor(n, m.nextId)), OrderRequest(SellFor(m.nextId + 1));
    assert MM.Cancels(m.active) + [b] + [s] == MM.Cancels(m.active) + [b, s];
  }

  lemma QuotesAre(n: nat)
    ensures MM.BidQuote(0.0, BookFor(n)) as real == BidFor(n) && MM.AskQuote(0.0, BookFor(n)) as real == 101.0
  {
    var top := BookFor(n);
    assert MM.Mid(top) == PRICE && MM.Shift(0.0, top) == if n % 2 == 0 then 0.0 else -0.5;
  }

  lemma NoPosition()
    ensures EventLoops.PE.TotalPosition(map[]) == 0.0
  {
    assert EventLoops.PE.Positions(map[]) == map[];
  }

  /** The components after n quotes: n buys rest, they and as many sells are all orders ever
      accepted, and the position is untouched. */
  ghost predicate Scene(c: System, n: nat) {
    && Untouched(c) && Flat(c.momentum) && QuotedSoFar(c.maker, n)
    && AllAway(c.exchange.resting) && Buys(c.exchange.resting) == n && c.log.accepted == c.exchange.resting
  }

  /** What the strategies do on the n-th quoting tick: the maker cancels and requotes. */
  lemma StrategiesQuote(c: System, n: nat)
    requires c.pnl.stats == map[] && Flat(c.momentum) && QuotedSoFar(c.maker, n)
    ensures var (maker, momentum, sent) := StrategiesOnTick(c, PRICE, EnvFor(n));
            Flat(momentum) && QuotedSoFar(maker, n + 1) &&
            sent == MM.Cancels(c.maker.active) +
                    [OrderRequest(BuyFor(n, c.maker.nextId)), OrderRequest(SellFor(c.maker.nextId + 1))]
  {
    var m := c.maker.(position := 0.0);
    NoPosition();
    MakerRequotes(m, n);
    FlatStaysFlat(c.momentum);
    hide MM.OnBook, MO.OnPrice, MM.Cancels, BuyFor, SellFor, QuotedSoFar, Flat, EventLoops.PE.TotalPosition;
    var quotes := MM.OnBook(m, Some(BookFor(n)), true).1;
    assert MO.Requests([]) == [];
    assert quotes + [] == quotes;
  }

  /** Nothing trades on it. */
  lemma QuotingTick(c: System, n: nat, t: Tick)
    requires Scene(c, n) && t.price == PRICE
    ensures var (c', out) := React(c, MarketData(t), EnvFor(n));
            c'.exchange == EX.Exchange(BID, ASK, c.exchange.nextTradeId, c.exchange.resting) &&
            Flat(c'.momentum) && QuotedSoFar(c'.maker, n + 1) &&
            c' == c.(maker := c'.maker, momentum := c'.momentum, exchange := c'.exchange) &&
            out == MM.Cancels(c.maker.active) +
                   [OrderRequest(BuyFor(n, c.maker.nextId)), OrderRequest(SellFor(c.maker.nextId + 1))]
  {
    hide MM.Cancels, BuyFor, SellFor, QuotedSoFar, Flat, Buys, AllAway, StrategiesOnTick, EX.Select, EX.Fills;
    StrategiesQuote(c, n);
    NothingCrosses(c.exchange.resting);
    var sent := StrategiesOnTick(c, PRICE, EnvFor(n)).2;
    assert EX.OnTick(c.exchange, PRICE) ==
      (EX.Exchange(BID, ASK, c.exchange.nextTradeId, c.exchange.resting),
       EX.Fills([], BID, ASK, c.exchange.nextTradeId));
    hide EX.OnTick;
    assert EX.AsEvents([]) == [] && sent + [] == sent;
  }

  // The rounds of a quoting tick

  lemma BuysOfMore(os: seq<Order>, b: Order, s: Order)
    requires b.side.Buy? && s.side.Sell?
    ensures Buys(os + [b, s]) == Buys(os) + 1
  {
    assert (os + [b, s])[..|os| + 1] == os + [b];
    assert (os + [b])[..|os|] == os;
  }

  lemma {:induction false} CancelsLength(ids: seq<nat>)
    ensures |MM.Cancels(ids)| == |ids|
  {
    if ids != [] {
      CancelsLength(ids[..|ids| - 1]);
    }
  }

  /** The second round: the old quotes are reported cancelled, the new ones accepted. */
  lemma CancelsAndRequests(c: System, ids: seq<nat>, b: Order, s: Order, env: Env)
    requires Untouched(c) && Away(b) && Away(s)
    ensures var (c', out) := Absorb(c, MM.Cancels(ids) + [OrderRequest(b), OrderRequest(s)], env);
            var reports := Absorb(c, MM.Cancels(ids), env).1;
            Keeps(c, c', [], [b, s]) && out == reports + [ValidatedOrder(b), ValidatedOrder(s)] &&
            AllHarmless(reports) && |reports| == |ids|
  {
    hide React, Absorb, Away, Harmless;
    var c1 := Absorb(c, MM.Cancels(ids), env).0;
    AbsorbCancels(c, ids, env);
    AbsorbRequests(c1, b, s, env);
    AbsorbAppend(c, MM.Cancels(ids), [OrderRequest(b), OrderRequest(s)], env);
    KeepsOn(c, c1, Absorb(c1, [OrderRequest(b), OrderRequest(s)], env).0, [], [], [], [b, s]);
    assert [] + [b, s] == [b, s];
  }

  /** The third round: both new quotes rest. */
  lemma ReportsAndOrders(c: System, reports: seq<Event>, b: Order, s: Order, env: Env)
    requires Untouched(c) && Away(b) && Away(s) && AllHarmless(reports)
    requires c.exchange.bestBid == BID && c.exchange.bestAsk == ASK
    ensures var (c', out) := Absorb(c, reports + [ValidatedOrder(b), ValidatedOrder(s)], env);
            Keeps(c, c', [b, s], []) && |out| == 2 && AllHarmless(out)
  {
    hide React, Absorb, Away, Harmless;
    var c1 := Absorb(c, reports, env).0;
    AbsorbReports(c, reports, env);
    AbsorbOrders(c1, b, s, env);
    var last := [ValidatedOrder(b), ValidatedOrder(s)];
    AbsorbAppend(c, reports, last, env);
    KeepsOn(c, c1, Absorb(c1, last, env).0, [], [b, s], [], []);
    assert [] + [b, s] == [b, s];
    assert [] + Absorb(c1, last, env).1 == Absorb(c1, last, env).1;
  }

  /** The rounds after the tick: everything settles and the two new quotes rest. */
  lemma QuotesSettle(c1: System, ids: seq<nat>, b: Order, s: Order, env: Env)
    requires Untouched(c1) && Away(b) && Away(s) && |ids| <= 2
    requires c1.exchange.bestBid == BID && c1.exchange.bestAsk == ASK
    ensures var e1 := MM.Cancels(ids) + [OrderRequest(b), OrderRequest(s)];
            var (c2, e2) := Absorb(c1, e1, env);
            var (c3, e3) := Absorb(c2, e2, env);
            var (c4, e4) := Absorb(c3, e3, env);
            |e1| <= BATCH && |e2| <= BATCH && |e3| <= BATCH && e4 == [] && Keeps(c1, c4, [b, s], [b, s])
  {
    hide React, MM.Cancels, Away, Absorb, Harmless;
    var e1 := MM.Cancels(ids) + [OrderRequest(b), OrderRequest(s)];
    CancelsLength(ids);
    CancelsAndRequests(c1, ids, b, s, env);
    var reports := Absorb(c1, MM.Cancels(ids), env).1;
    var (c2, e2) := Absorb(c1, e1, env);
    ReportsAndOrders(c2, reports, b, s, env);
    var (c3, e3) := Absorb(c2, e2, env);
    AbsorbReports(c3, e3, env);
    var c4 := Absorb(c3, e3, env).0;
    hide AllHarmless;
    KeepsOn(c1, c2, c3, [], [b, s], [b, s], []);
    KeepsOn(c1, c3, c4, [] + [b, s], [], [b, s] + [], []);
    hide Keeps;
    assert ([] + [b, s]) + [] == [b, s] == ([b, s] + []) + [];
  }

  lemma SceneGrows(c: System, c1: System, c4: System, n: nat, b: Order, s: Order)
    requires Scene(c, n) && Away(b) && Away(s) && b.side.Buy? && s.side.Sell?
    requires Flat(c1.momentum) && QuotedSoFar(c1.maker, n + 1) && c1.exchange.resting == c.exchange.resting
    requires c1 == c.(maker := c1.maker, momentum := c1.momentum, exchange := c1.exchange)
    requires Keeps(c1, c4, [b, s], [b, s])
    ensures Scene(c4, n + 1)
  {
    BuysOfMore(c.exchange.resting, b, s);
    hide Flat, QuotedSoFar, Away, Buys;
  }

  /** After the tick, the requests and cancellations, the orders and the reports both quotes rest. */
  lemma QuoteRounds(c: System, n: nat, t: Tick)
    requires Scene(c, n) && t.price == PRICE
    ensures |React(c, MarketData(t), EnvFor(n)).1| <= BATCH
    ensures var (c', left) := AfterTick(c, t, EnvFor(n));
            left == [] && Scene(c', n + 1) && c'.risk.maxPosition == c.risk.maxPosition
  {
    var env, ids := EnvFor(n), c.maker.active;
    var b, s := BuyFor(n, c.maker.nextId), SellFor(c.maker.nextId + 1);
    assert Away(b) && Away(s) && b.side.Buy? && s.side.Sell?;
    assert Untouched(c) && |ids| <= 2;
    QuotingTick(c, n, t);
    hide React, EnvFor, MM.Cancels, BuyFor, SellFor, Away, Absorb, Flat, QuotedSoFar, Scene, Untouched;
    var (c1, e1) := React(c, MarketData(t), env);
    QuotesSettle(c1, ids, b, s, env);
    ThreeRounds(c1, e1, env);
    hide Rounds;
    var c4 := AfterTick(c, t, env).0;
    SceneGrows(c, c1, c4, n, b, s);
    hide AfterTick, Absorb;
  }

  // What the book shows

  /** The trades so far: the opening one, then n takers at the same price. */
  ghost predicate Traded(ts: seq<Tick>, n: nat) {
    && OB.SideTrades(ts, true) == [OPENING] && |OB.SideTrades(ts, false)| == n
    && (forall t :: t in OB.SideTrades(ts, false) ==> t.price == PRICE)
    && (n > 0 ==> OB.SideTrades(ts, false)[n - 1].quantity == QuantityFor(n - 1))
  }

  lemma {:induction false} OnePrice(ts: seq<Tick>)
    requires ts != [] && forall t :: t in ts ==> t.price == PRICE
    ensures OB.DistinctPrices(ts) == [PRICE] && OB.LastQuantity(ts, PRICE) == ts[|ts| - 1].quantity
  {
    var n := |ts| - 1;
    assert ts[n] in ts;
    if n > 0 {
      OnePrice(ts[..n]);
    } else {
      assert ts[..0] == [] && OB.DistinctPrices([]) == [];
    }
  }

  /** Trades at one price make a side of one level. */
  lemma OneLevel(ts: seq<Tick>, descending: bool)
    requires ts != [] && forall t :: t in ts ==> t.price == PRICE
    ensures OB.IsSide([OB.Level(PRICE, ts[|ts| - 1].quantity)], ts, descending)
  {
    OnePrice(ts);
    hide OB.DistinctPrices, OB.LastQuantity;
    assert OB.KeptPrices(ts) == [PRICE];
  }

  lemma BookAfter(ts: seq<Tick>, n: nat)
    requires Traded(ts, n)
    ensures Traded(ts + [TradeFor(n)], n + 1) && Shows(ts + [TradeFor(n)], Some(BookFor(n)))
  {
    var t, asks := TradeFor(n), OB.SideTrades(ts, false);
    OB.SideTradesOfOneMore(ts, t);
    hide OB.SideTrades, QuantityFor;
    assert (asks + [t])[n] == t;
    OneLevel([OPENING], true);
    OneLevel(asks + [t], false);
    hide OB.IsSide;
    assert BestOf([OB.Level(PRICE, 1.0)], [OB.Level(PRICE, QuantityFor(n))], Some(BookFor(n)));
    assert OB.IsSide([OB.Level(PRICE, 1.0)], OB.SideTrades(ts + [t], true), true);
  }

  lemma OpeningBook()
    ensures Traded([OPENING], 0) && Shows([OPENING], None)
  {
    assert [OPENING][..0] == [];
    assert OB.SideTrades([], true) == [] == OB.SideTrades([], false);
    assert OB.SideTrades([OPENING], true) == [OPENING] && OB.SideTrades([OPENING], false) == [];
  }

  // The falling tick

  const FALL := Tick(50.0, 1.0, true)

  /** The book after it, which nobody quotes on for lack of time. */
  function FallEnv(n: nat): Env {
    Env(if n == 0 then None else Some(BookFor(n - 1)), false)
  }

  lemma TwoLevels()
    ensures OB.IsSide([OB.Level(PRICE, 1.0), OB.Level(50.0, 1.0)], [OPENING, FALL], true)
  {
    var ts := [OPENING, FALL];
    assert ts[..1] == [OPENING] && ts[..1][..0] == [];
    assert OB.DistinctPrices(ts[..1][..0]) == [] && OB.DistinctPrices(ts[..1]) == [PRICE];
    assert OB.DistinctPrices(ts) == [PRICE, 50.0] && OB.KeptPrices(ts) == [PRICE, 50.0];
    assert OB.LastQuantity(ts, 50.0) == 1.0 && OB.LastQuantity(ts, PRICE) == OB.LastQuantity(ts[..1], PRICE) == 1.0;
    hide OB.KeptPrices, OB.LastQuantity;
    assert forall p :: p in [PRICE, 50.0] <==> p == PRICE || p == 50.0;
  }

  lemma BookAtFall(ts: seq<Tick>, n: nat)
    requires Traded(ts, n)
    ensures Shows(ts + [FALL], FallEnv(n).top)
  {
    var asks := OB.SideTrades(ts, false);
    OB.SideTradesOfOneMore(ts, FALL);
    TwoLevels();
    assert [OPENING] + [FALL] == [OPENING, FALL];
    var bids := [OB.Level(PRICE, 1.0), OB.Level(50.0, 1.0)];
    hide OB.SideTrades;
    if n == 0 {
      assert asks == [];
    } else {
      OneLevel(asks, false);
      hide OB.IsSide;
      assert BestOf(bids, [OB.Level(PRICE, QuantityFor(n - 1))], FallEnv(n).top);
    }
  }

  predicate FilledBuy(e: Event, q: real) {
    e.ExecutionReport? && e.report.status.Filled? && e.report.side.Buy? && e.report.lastQty == q
  }

  ghost predicate AllFilledBuys(es: seq<Event>, q: real) {
    forall e :: e in es ==> FilledBuy(e, q)
  }

  lemma {:induction false} BuysCross(rs: seq<Order>, bid: real, ask: real)
    requires AllAway(rs) && bid == 49.75 && ask == 50.25
    ensures |EX.Select(rs, bid, ask, true)| == Buys(rs)
    ensures forall o :: o in EX.Select(rs, bid, ask, true) ==> o.side.Buy? && o.quantity == MM.LOT
  {
    if rs != [] {
      assert rs[|rs| - 1] in rs;
      BuysCross(rs[..|rs| - 1], bid, ask);
    }
  }

  lemma FillsOfBuys(os: seq<Order>, bid: real, ask: real, id: nat)
    requires forall o :: o in os ==> o.side.Buy? && o.quantity == MM.LOT
    ensures AllFilledBuys(EX.AsEvents(EX.Fills(os, bid, ask, id)), MM.LOT)
  {
    var es := EX.AsEvents(EX.Fills(os, bid, ask, id));
    forall e | e in es ensures FilledBuy(e, MM.LOT) {
      var i :| 0 <= i < |es| && es[i] == e;
      assert os[i] in os;
    }
  }

  lemma StrategiesSilent(c: System, n: nat)
    requires Flat(c.momentum)
    ensures StrategiesOnTick(c, FALL.price, FallEnv(n)).2 == []
  {
    hide EventLoops.PE.TotalPosition;
    assert MO.Requests([]) == [];
    assert MO.OnPrice(c.momentum, FALL.price).1 == [];
  }

  /** It fills every resting buy. */
  lemma FallingTick(c: System, n: nat)
    requires Scene(c, n)
    ensures var (c', out) := React(c, MarketData(FALL), FallEnv(n));
            |out| == n && AllFilledBuys(out, MM.LOT) && c'.risk == c.risk && c'.log.accepted == c.log.accepted
  {
    var bid, ask := FALL.price - EX.SPREAD / 2.0, FALL.price + EX.SPREAD / 2.0;
    StrategiesSilent(c, n);
    BuysCross(c.exchange.resting, bid, ask);
    var filled := EX.Select(c.exchange.resting, bid, ask, true);
    FillsOfBuys(filled, bid, ask, c.exchange.nextTradeId);
    hide StrategiesOnTick, EX.Select, EX.Fills, Buys, AllFilledBuys, AllAway, QuotedSoFar, Flat, FallEnv;
    var fills := EX.AsEvents(EX.OnTick(c.exchange, FALL.price).1);
    assert [] + fills == fills;
  }

  lemma FillMoves(c: System, e: Event, q: real, env: Env)
    requires FilledBuy(e, q)
    ensures var (c', out) := React(c, e, env);
            out == [] && c'.risk == c.risk.(position := c.risk.position + q) && c'.log.accepted == c.log.accepted
  {
    hide EventLoops.PE.Mark, EventLoops.PE.OnFill;
  }

  lemma OneMoreTime(n: nat, q: real)
    ensures Times((n + 1) as real, q) == Times(n as real, q) + q
  {
    TimesDistributes(n as real, 1.0, q);
  }

  /** Fills of one size, applied one after the other. */
  lemma {:induction false} AllApplied(c: System, es: seq<Event>, q: real, env: Env)
    requires AllFilledBuys(es, q)
    ensures var (c', out) := Absorb(c, es, env);
            out == [] && c'.risk == c.risk.(position := c.risk.position + Times(|es| as real, q)) &&
            c'.log.accepted == c.log.accepted
  {
    hide React, FilledBuy;
    if es == [] {
      TimesZero(q);
    } else {
      hide Times;
      var n := |es| - 1;
      assert es[n] in es;
      AllApplied(c, es[..n], q, env);
      FillMoves(Absorb(c, es[..n], env).0, es[n], q, env);
      OneMoreTime(n, q);
    }
  }

  lemma TimesIsProduct(x: real, q: real)
    ensures Times(x, q) == x * q
  {
  }

  /** The tick and the fills: n lots long. */
  lemma FallRounds(c: System, n: nat)
    requires Scene(c, n)
    ensures |React(c, MarketData(FALL), FallEnv(n)).1| == n
    ensures var (c', left) := AfterTick(c, FALL, FallEnv(n));
            left == [] && c'.risk.position == n as real * MM.LOT && c'.log.accepted == c.log.accepted
  {
    assert c.risk.position == 0.0;
    FallingTick(c, n);
    hide React, Scene, AllFilledBuys, Times, FallEnv;
    var (c1, out) := React(c, MarketData(FALL), FallEnv(n));
    AllApplied(c1, out, MM.LOT, FallEnv(n));
    TimesIsProduct(n as real, MM.LOT);
    ThreeRounds(c1, out, FallEnv(n));
    hide Rounds;
    var c2 := Absorb(c1, out, FallEnv(n)).0;
    AbsorbNone(c2, FallEnv(n));
    hide Absorb;
  }

  // From the start

  function Machine(capacity: nat, maxPosition: real): Setup {
    Setup(BookFed, capacity, maxPosition)
  }

  /** Idle after n quotes. */
  ghost predicate Quoting(m: Setup, s: Loop, n: nat) {
    && Idle(s) && s.queue.failed == 0 && s.queue.capacity == m.capacity
    && Scene(s.sys, n) && s.sys.risk.maxPosition == m.maxPosition && Traded(TicksIn(s.handled), n)
  }

  /** The opening trade: nothing to quote on yet. */
  lemma OpeningTick(c: System, maxPosition: real)
    requires c == Start(0, [], maxPosition).sys && maxPosition >= MM.LOT
    ensures var env := Env(None, true);
            React(c, MarketData(OPENING), env).1 == [] &&
            var (c', left) := AfterTick(c, OPENING, env);
            left == [] && Scene(c', 0) && c'.risk == c.risk
  {
    var env := Env(None, true);
    NoPosition();
    FlatStaysFlat(c.momentum);
    hide EventLoops.PE.TotalPosition, MO.OnPrice;
    assert MO.Requests([]) == [] && EX.Fills([], BID, ASK, 1) == [] && EX.AsEvents([]) == [];
    var (c1, out) := React(c, MarketData(OPENING), env);
    assert out == [] && Scene(c1, 0);
    NothingLeft(c1, env, 3);
    hide React, Scene, Rounds;
  }

  lemma Opened(m: Setup) returns (p: Path, s: Loop)
    requires m.wiring.BookFed? && m.capacity >= BATCH && m.maxPosition >= MM.LOT
    ensures Reaches(m, p, s) && Quoting(m, s, 0)
  {
    hide Reaches, React, Rounds, Shows, Scene;
    var s0, env := Origin(m, []), Env(None, true);
    StartIsReached(m);
    OpeningTick(s0.sys, m.maxPosition);
    OpeningBook();
    assert TicksIn([]) == [] && [] + [OPENING] == [OPENING];
    p, s := ReachAfterTick(m, Path([], []), s0, OPENING, env);
  }

  lemma QuoteOnce(m: Setup, p: Path, s: Loop, n: nat) returns (p': Path, s': Loop)
    requires m.wiring.BookFed? && m.capacity >= BATCH && Reaches(m, p, s) && Quoting(m, s, n)
    ensures Reaches(m, p', s') && Quoting(m, s', n + 1)
  {
    hide Reaches, React, Rounds, Shows, Scene, Traded, EnvFor;
    QuoteRounds(s.sys, n, TradeFor(n));
    BookAfter(TicksIn(s.handled), n);
    assert EnvFor(n).top == Some(BookFor(n)) by {
      EnvForShows(n);
    }
    p', s' := ReachAfterTick(m, p, s, TradeFor(n), EnvFor(n));
  }

  lemma EnvForShows(n: nat)
    ensures EnvFor(n).top == Some(BookFor(n))
  {
  }

  /** For every n the loop gets to n resting buys with an untouched position. */
  lemma {:induction false} QuotesPileUp(m: Setup, n: nat) returns (p: Path, s: Loop)
    requires m.wiring.BookFed? && m.capacity >= BATCH && m.maxPosition >= MM.LOT
    ensures Reaches(m, p, s) && Quoting(m, s, n)
  {
    hide Reaches, Quoting;
    if n == 0 {
      p, s := Opened(m);
    } else {
      var p1, s1 := QuotesPileUp(m, n - 1);
      p, s := QuoteOnce(m, p1, s1, n - 1);
    }
  }

  /** The run that ends n lots long. */
  lemma LongRun(n: nat, capacity: nat, maxPosition: real) returns (feed: seq<seq<Tick>>, envs: seq<Env>)
    requires maxPosition >= MM.LOT && capacity >= BATCH && capacity >= n
    ensures AllowedRun(BookFed, Start(capacity, feed, maxPosition), envs)
    ensures var s := Run(Start(capacity, feed, maxPosition), envs);
            s.sys.risk.position == n as real * MM.LOT && s.queue.failed == 0 &&
            Buys(s.sys.log.accepted) == n && AllAway(s.sys.log.accepted)
  {
    hide Reaches, React, Rounds, Shows, Traded, Run, AllowedRun, Buys, AllAway, FallEnv;
    var m := Machine(capacity, maxPosition);
    var p, s := QuotesPileUp(m, n);
    FallRounds(s.sys, n);
    BookAtFall(TicksIn(s.handled), n);
    var p', s' := ReachAfterTick(m, p, s, FALL, FallEnv(n));
    ReachedNow(m, p', s');
    feed, envs := p'.feed, p'.envs;
    assert Origin(m, feed) == Start(capacity, feed, maxPosition);
  }

  /** No limit is a bound on the position: whatever it is, the strategies' own orders can take the
      position to any number of lots the queue has room for, without a single failed push. */
  lemma LimitCanBeExceeded(n: nat, capacity: nat, maxPosition: real)
    requires maxPosition >= 0.1 && capacity >= 4 && capacity >= n
    ensures exists feed, envs ::
              AllowedRun(BookFed, Start(capacity, feed, maxPosition), envs) &&
              var s := Run(Start(capacity, feed, maxPosition), envs);
              s.sys.risk.position == n as real * 0.1 && s.queue.failed == 0
  {
    hide Run, AllowedRun;
    var feed, envs := LongRun(n, capacity, maxPosition);
    assert Run(Start(capacity, feed, maxPosition), envs).queue.failed == 0;
  }
}
