/**
 The momentum strategy alone trades half a coin at a time and always a buy before the next sell. Still
 no limit bounds the position. The price goes up in steps of one percent. When it goes further up
 before the buy has reached the exchange, the buy is left resting below the market. Back at the price
 of the buy the averages cross, the sell fills or is refused, and the next step begins. Once enough
 buys rest, each below the next, a falling price fills them one after the other. All trades are of one
 side, so the market maker has no book to quote on: the run is one of main.cpp as it stands, and one of
 the loop with a fed book too.
 */
module LoopStaircase {
  import opened Events
  import opened EventLoops
  import opened LoopSteps
  import opened LoopWiring
  import opened LoopQuiet
  import EX = MatchingEngines
  import MO = Momentums
  import OB = OrderBooks
  import OM = OrderManagers
  import RE = RiskEngines

  /** There is no book to look at. */
  const NO_BOOK := Env(None, false)

  function At(price: real): Tick {
    Tick(price, 1.0, true)
  }

  // The part of the components that matters here

  datatype Scene = Scene(momentum: MO.Momentum, bid: real, ask: real, resting: seq<Order>, risk: RE.Risk)

  function SceneOf(c: System): Scene {
    Scene(c.momentum, c.exchange.bestBid, c.exchange.bestAsk, c.exchange.resting, c.risk)
  }

  lemma TickScene(c: System, price: real)
    ensures var (c', out) := React(c, MarketData(At(price)), NO_BOOK);
            var bid, ask := price - EX.SPREAD / 2.0, price + EX.SPREAD / 2.0;
            var (momentum, orders) := MO.OnPrice(c.momentum, price);
            var filled := EX.Select(c.exchange.resting, bid, ask, true);
            SceneOf(c') == Scene(momentum, bid, ask, EX.Select(c.exchange.resting, bid, ask, false), c.risk) &&
            out == MO.Requests(orders) + EX.AsEvents(EX.Fills(filled, bid, ask, c.exchange.nextTradeId))
  {
    hide EX.Select, EX.Fills, MO.OnPrice, EventLoops.PE.TotalPosition;
    var orders := MO.OnPrice(c.momentum, price).1;
    assert [] + MO.Requests(orders) == MO.Requests(orders);
  }

  lemma RequestScene(c: System, o: Order)
    ensures var (c', out) := React(c, OrderRequest(o), NO_BOOK);
            SceneOf(c') == SceneOf(c) && out == if OM.Validates(c.risk, o) then [ValidatedOrder(o)] else []
  {
    hide OM.Validates;
  }

  lemma RestingScene(c: System, o: Order)
    requires o.kind.Limit? && !EX.Marketable(o.side, o.price, c.exchange.bestBid, c.exchange.bestAsk)
    ensures var (c', out) := React(c, ValidatedOrder(o), NO_BOOK);
            SceneOf(c') == SceneOf(c).(resting := c.exchange.resting + [o]) &&
            |out| == 1 && out[0].ExecutionReport? && !out[0].report.status.Filled?
  {
    hide EX.Marketable;
  }

  lemma FilledScene(c: System, o: Order)
    requires o.kind.Limit? && EX.Marketable(o.side, o.price, c.exchange.bestBid, c.exchange.bestAsk)
    ensures var (c', out) := React(c, ValidatedOrder(o), NO_BOOK);
            SceneOf(c') == SceneOf(c) && |out| == 1 && out[0].ExecutionReport? && out[0].report.status.Filled? &&
            out[0].report.side == o.side && out[0].report.lastQty == o.quantity
  {
    hide EX.Marketable;
  }

  lemma ReportScene(c: System, r: Report)
    ensures var (c', out) := React(c, ExecutionReport(r), NO_BOOK);
            SceneOf(c') == (if r.status.Filled? then SceneOf(c).(risk := RE.Moved(c.risk, SignedQty(r.side, r.lastQty)))
                            else SceneOf(c)) &&
            out == []
  {
    hide EventLoops.PE.Mark, EventLoops.PE.OnFill, RE.Moved;
  }

  // The ladder of resting buys

  predicate Rung(o: Order) {
    o.kind.Limit? && o.side.Buy? && o.quantity == MO.LOT && o.price >= 2.0
  }

  /** Resting buys, each at least 1 above the one before, none above `top`. */
  ghost predicate Ladder(rs: seq<Order>, top: real) {
    && (forall i :: 0 <= i < |rs| ==> Rung(rs[i]) && rs[i].price <= top)
    && (forall i, j :: 0 <= i < j < |rs| ==> rs[i].price + 1.0 <= rs[j].price)
  }

  /** Buys below the ask do not trade. */
  lemma {:induction false} NothingCrosses(rs: seq<Order>, bid: real, ask: real)
    requires forall i :: 0 <= i < |rs| ==> rs[i].side.Buy? && rs[i].price < ask
    ensures EX.Select(rs, bid, ask, true) == [] && EX.Select(rs, bid, ask, false) == rs
  {
    if rs != [] {
      var n := |rs| - 1;
      NothingCrosses(rs[..n], bid, ask);
      assert !EX.Crosses(rs[n], bid, ask);
      assert EX.Select(rs, bid, ask, true) == [] + [] && EX.Select(rs, bid, ask, false) == rs[..n] + [rs[n]];
      hide EX.Select, EX.Crosses;
      assert rs == rs[..n] + [rs[n]];
    }
  }

  /** A tick above the ladder fills none of it. */
  lemma AboveLadder(rs: seq<Order>, top: real, bid: real, ask: real)
    requires Ladder(rs, top) && ask > top
    ensures EX.Select(rs, bid, ask, true) == [] && EX.Select(rs, bid, ask, false) == rs
  {
    hide EX.Select;
    NothingCrosses(rs, bid, ask);
  }

  /** A tick whose ask is the highest limit fills just that buy. */
  lemma TopOfLadder(rs: seq<Order>, top: real, bid: real, ask: real)
    requires Ladder(rs, top) && rs != [] && ask == rs[|rs| - 1].price
    ensures EX.Select(rs, bid, ask, true) == [rs[|rs| - 1]] && EX.Select(rs, bid, ask, false) == rs[..|rs| - 1]
    ensures Ladder(rs[..|rs| - 1], ask - 1.0)
  {
    var n := |rs| - 1;
    AboveLadder(rs[..n], ask - 1.0, bid, ask);
    assert [] + [rs[n]] == [rs[n]] && rs[..n] + [] == rs[..n];
  }

  /** What every tick above the ladder does. */
  lemma TickAbove(c: System, top: real, price: real)
    requires Ladder(c.exchange.resting, top) && price > top - EX.SPREAD / 2.0
    ensures var (c', out) := React(c, MarketData(At(price)), NO_BOOK);
            var (momentum, orders) := MO.OnPrice(c.momentum, price);
            SceneOf(c') ==
              SceneOf(c).(momentum := momentum, bid := price - EX.SPREAD / 2.0, ask := price + EX.SPREAD / 2.0) &&
            out == MO.Requests(orders)
  {
    TickScene(c, price);
    AboveLadder(c.exchange.resting, top, price - EX.SPREAD / 2.0, price + EX.SPREAD / 2.0);
    hide MO.OnPrice, React, EX.Select;
    var orders := MO.OnPrice(c.momentum, price).1;
    assert EX.AsEvents(EX.Fills([], price - EX.SPREAD / 2.0, price + EX.SPREAD / 2.0, c.exchange.nextTradeId)) == [];
    assert MO.Requests(orders) + [] == MO.Requests(orders);
  }

  // One step of the staircase

  /** The position that matters for acceptance: at most one more sell is ever refused. */
  predicate InBand(r: RE.Risk) {
    r.maxPosition >= MO.LOT && -r.maxPosition <= r.position <= 0.0
  }

  /** No position is open, the averages have crossed back, all above the ladder. */
  predicate Calm(m: MO.Momentum, top: real) {
    !m.open && m.count >= MO.WARM_UP - 1 && 1.0 <= top <= m.shortEma <= m.longEma
  }

  /** Both averages are as good as at the price of the last buy. */
  predicate Near(m: MO.Momentum, top: real) {
    BASE <= top && m.longEma <= 1.001 * top
  }

  /** n buys rest. */
  ghost predicate Stair(c: System, n: nat, top: real) {
    |c.exchange.resting| == n && Ladder(c.exchange.resting, top) && Calm(c.momentum, top)
  }

  /** The price at which the staircase starts. */
  const BASE := 10000.0

  /** One percent more is a signal. */
  function JumpFrom(top: real): real {
    1.01 * top
  }

  /** Two percent above the buy: stay there for a while, and the averages end up well above it. */
  function JumpTo(y: real): real {
    1.02 * y
  }

  /** While the price stays at z: the short average rises ahead of the long one. */
  predicate Rising(m: MO.Momentum, z: real) {
    m.open && m.count >= MO.WARM_UP && 0.0 < m.longEma <= m.shortEma <= z
  }

  /** After that: the strategy has bought and both averages are above its buy. */
  predicate Peak(m: MO.Momentum, y: real) {
    && m.open && m.count >= MO.WARM_UP && y >= BASE
    && 1.005 * y <= m.longEma <= JumpTo(y) && y <= m.shortEma <= JumpTo(y)
  }

  lemma JumpSignals(m: MO.Momentum, top: real)
    requires Calm(m, top) && Near(m, top)
    ensures var x := JumpFrom(top);
            var (m1, orders) := MO.OnPrice(m, x);
            orders == [MO.TrendOrder(m.nextId, Buy, x + 1.0)] && Rising(m1, x) && top <= m1.longEma
  {
    var x := JumpFrom(top);
    var m1 := MO.Updated(m, x);
    assert m1.shortEma == x * (2.0 / 11.0) + m.shortEma * (9.0 / 11.0);
    assert m1.longEma == x * (2.0 / 51.0) + m.longEma * (49.0 / 51.0);
  }

  /** A tick at a price above both averages. */
  lemma RisingSignal(m: MO.Momentum, x: real, z: real)
    requires Rising(m, x) && x <= z
    ensures var (m', orders) := MO.OnPrice(m, z);
            orders == [] && Rising(m', z) && m.longEma <= m'.longEma &&
            z - m'.longEma == (z - m.longEma) * (49.0 / 51.0)
  {
    var m1 := MO.Updated(m, z);
    assert m1.shortEma == z * (2.0 / 11.0) + m.shortEma * (9.0 / 11.0);
    assert m1.longEma == z * (2.0 / 51.0) + m.longEma * (49.0 / 51.0);
    assert !MO.Bearish(m1);
  }

  lemma BuyAccepted(r: RE.Risk, o: Order)
    requires InBand(r) && Rung(o)
    ensures OM.Validates(r, o)
  {
  }

  /** The components while the two jumps are handled, the second before the buy is at the exchange. */
  lemma JumpReacts(c: System, n: nat, top: real)
    requires Stair(c, n, top) && Near(c.momentum, top) && InBand(c.risk)
    ensures var x := JumpFrom(top);
            var b := MO.TrendOrder(c.momentum.nextId, Buy, x + 1.0);
            var z := JumpTo(b.price);
            var (c1, out1) := React(c, MarketData(At(x)), NO_BOOK);
            var (c2, out2) := React(c1, OrderRequest(b), NO_BOOK);
            var (c3, out3) := React(c2, MarketData(At(z)), NO_BOOK);
            out1 == [OrderRequest(b)] && out2 == [ValidatedOrder(b)] && out3 == [] && Rung(b) && b.price >= top + 1.0 &&
            c3.exchange.bestAsk > b.price && c3.exchange.resting == c.exchange.resting &&
            c3.risk == c.risk && Rising(c3.momentum, z) && top <= c3.momentum.longEma
  {
    hide React, Ladder, EX.Select;
    var x := JumpFrom(top);
    var b := MO.TrendOrder(c.momentum.nextId, Buy, x + 1.0);
    var z := JumpTo(b.price);
    JumpSignals(c.momentum, top);
    RisingSignal(MO.OnPrice(c.momentum, x).0, x, z);
    hide MO.OnPrice, Calm, Rising;
    TickAbove(c, top, x);
    assert MO.Requests([b]) == [OrderRequest(b)] && MO.Requests([]) == [];
    var c1 := React(c, MarketData(At(x)), NO_BOOK).0;
    RequestScene(c1, b);
    BuyAccepted(c.risk, b);
    hide OM.Validates;
    var c2 := React(c1, OrderRequest(b), NO_BOOK).0;
    TickAbove(c2, top, z);
  }

  lemma BuyRests(c: System, n: nat, top: real, b: Order)
    requires |c.exchange.resting| == n && Ladder(c.exchange.resting, top)
    requires Rung(b) && b.price >= top + 1.0 && c.exchange.bestAsk > b.price
    ensures var (c', left) := Rounds(c, [ValidatedOrder(b)], NO_BOOK, 2);
            left == [] && |c'.exchange.resting| == n + 1 && Ladder(c'.exchange.resting, b.price) &&
            c'.momentum == c.momentum && c'.risk == c.risk
  {
    hide React, Ladder;
    RestingScene(c, b);
    var (c1, out) := React(c, ValidatedOrder(b), NO_BOOK);
    AbsorbOne(c, ValidatedOrder(b), NO_BOOK);
    assert out == [out[0]];
    ReportScene(c1, out[0].report);
    AbsorbOne(c1, out[0], NO_BOOK);
    TwoRounds(c, [ValidatedOrder(b)], NO_BOOK);
    hide Rounds, Absorb;
    LadderGrows(c.exchange.resting, top, b);
  }

  lemma LadderGrows(rs: seq<Order>, top: real, b: Order)
    requires Ladder(rs, top) && Rung(b) && b.price >= top + 1.0
    ensures Ladder(rs + [b], b.price)
  {
  }

  // At the higher price

  ghost predicate Plateau(c: System, n: nat, y: real) {
    && |c.exchange.resting| == n && Ladder(c.exchange.resting, y) && InBand(c.risk) && y >= BASE
    && Rising(c.momentum, JumpTo(y))
  }

  lemma PlateauTick(c: System, n: nat, y: real)
    requires Plateau(c, n, y)
    ensures React(c, MarketData(At(JumpTo(y))), NO_BOOK).1 == []
    ensures var (c', left) := AfterTick(c, At(JumpTo(y)), NO_BOOK);
            left == [] && Plateau(c', n, y) && c'.risk == c.risk &&
            JumpTo(y) - c'.momentum.longEma == (JumpTo(y) - c.momentum.longEma) * (49.0 / 51.0)
  {
    hide React, Ladder, Rounds;
    var z := JumpTo(y);
    TickAbove(c, y, z);
    RisingSignal(c.momentum, z, z);
    hide MO.OnPrice, Rising;
    RequestsOf([]);
    NothingLeft(React(c, MarketData(At(z)), NO_BOOK).0, NO_BOOK, 3);
  }

  // Down again

  /** On the way down at price `y`: either the sell is still to come, or the averages have crossed. */
  ghost predicate Slope(c: System, n: nat, y: real) {
    && |c.exchange.resting| == n && Ladder(c.exchange.resting, y) && InBand(c.risk) && y >= 2.0
    && c.momentum.count >= MO.WARM_UP && y <= c.momentum.shortEma && y <= c.momentum.longEma
    && (!c.momentum.open ==> c.momentum.shortEma <= c.momentum.longEma)
  }

  predicate Crossed(short: real, long: real) {
    short < long * 0.9999
  }

  /** One tick at `y`: the averages come closer to it, each at its own speed. */
  lemma SlopeSignal(m: MO.Momentum, y: real)
    requires m.count >= MO.WARM_UP && y >= 2.0 && y <= m.shortEma && y <= m.longEma
    requires !m.open ==> m.shortEma <= m.longEma
    ensures var (m', orders) := MO.OnPrice(m, y);
            m'.shortEma - y == (m.shortEma - y) * (9.0 / 11.0) && m'.longEma - y == (m.longEma - y) * (49.0 / 51.0) &&
            m'.count >= MO.WARM_UP && (!m'.open ==> m'.shortEma <= m'.longEma) &&
            (m'.open ==> m.open && !Crossed(m'.shortEma, m'.longEma)) &&
            (orders == [] || orders == [MO.TrendOrder(m.nextId, Sell, y - 1.0)])
  {
    var m1 := MO.Updated(m, y);
    assert m1.shortEma == y * (2.0 / 11.0) + m.shortEma * (9.0 / 11.0);
    assert m1.longEma == y * (2.0 / 51.0) + m.longEma * (49.0 / 51.0);
  }

  /** A sell is refused, or it fills at once and the position stays in the band. */
  lemma SellSettles(c: System, o: Order)
    requires o.kind.Limit? && o.side.Sell? && o.quantity == MO.LOT && 0.0 < o.price <= c.exchange.bestBid
    requires InBand(c.risk)
    ensures var (c', left) := Rounds(c, [OrderRequest(o)], NO_BOOK, 3);
            left == [] && SceneOf(c') == SceneOf(c).(risk := c'.risk) && InBand(c'.risk) &&
            c'.risk.maxPosition == c.risk.maxPosition
  {
    hide React, Absorb;
    RequestScene(c, o);
    AbsorbOne(c, OrderRequest(o), NO_BOOK);
    var (c1, out1) := React(c, OrderRequest(o), NO_BOOK);
    ThreeRounds(c, [OrderRequest(o)], NO_BOOK);
    hide Rounds;
    if OM.Validates(c.risk, o) {
      FilledScene(c1, o);
      AbsorbOne(c1, ValidatedOrder(o), NO_BOOK);
      var (c2, out2) := React(c1, ValidatedOrder(o), NO_BOOK);
      assert out2 == [out2[0]];
      ReportScene(c2, out2[0].report);
      AbsorbOne(c2, out2[0], NO_BOOK);
    } else {
      AbsorbNone(c1, NO_BOOK);
    }
  }

  lemma SlopeTick(c: System, n: nat, y: real)
    requires Slope(c, n, y)
    ensures |React(c, MarketData(At(y)), NO_BOOK).1| <= 1
    ensures var (c', left) := AfterTick(c, At(y), NO_BOOK);
            left == [] && Slope(c', n, y) && c'.risk.maxPosition == c.risk.maxPosition &&
            c'.momentum.shortEma - y == (c.momentum.shortEma - y) * (9.0 / 11.0) &&
            c'.momentum.longEma - y == (c.momentum.longEma - y) * (49.0 / 51.0) &&
            (c'.momentum.open ==> c.momentum.open && !Crossed(c'.momentum.shortEma, c'.momentum.longEma))
  {
    hide React, Ladder, Crossed, Rounds;
    TickAbove(c, y, y);
    SlopeSignal(c.momentum, y);
    var (m', orders) := MO.OnPrice(c.momentum, y);
    hide MO.OnPrice, MO.Requests;
    var (c1, out) := React(c, MarketData(At(y)), NO_BOOK);
    RequestsOf(orders);
    if orders == [] {
      NothingLeft(c1, NO_BOOK, 3);
    } else {
      SellSettles(c1, orders[0]);
    }
  }

  lemma RequestsOf(orders: seq<Order>)
    ensures orders == [] ==> MO.Requests(orders) == []
    ensures |orders| == 1 ==> MO.Requests(orders) == [OrderRequest(orders[0])]
  {
  }

  // How far the averages come down

  function Shrunk(x: real, factor: real, k: nat): real {
    if k == 0 then x else Shrunk(x, factor, k - 1) * factor
  }

  lemma ShortShrinks(u: real)
    requires u >= 0.0
    ensures Shrunk(u, 9.0 / 11.0, 11) <= 0.11 * u
  {
    var f := 9.0 / 11.0;
    assert Shrunk(u, f, 1) == u * f;
    assert Shrunk(u, f, 2) <= 0.66943 * u;
    assert Shrunk(u, f, 3) <= 0.54772 * u;
    assert Shrunk(u, f, 4) <= 0.44814 * u;
    assert Shrunk(u, f, 5) <= 0.36667 * u;
    assert Shrunk(u, f, 6) <= 0.30001 * u;
    assert Shrunk(u, f, 7) <= 0.24547 * u;
    assert Shrunk(u, f, 8) <= 0.20084 * u;
    assert Shrunk(u, f, 9) <= 0.16433 * u;
    assert Shrunk(u, f, 10) <= 0.13446 * u;
  }

  lemma LongShrinks(v: real)
    requires v >= 0.0
    ensures 0.6699 * v <= Shrunk(v, 49.0 / 51.0, 10) <= 0.6704 * v
    ensures 0.64 * v <= Shrunk(v, 49.0 / 51.0, 11) <= v
  {
    var f := 49.0 / 51.0;
    assert Shrunk(v, f, 1) == v * f;
    assert 0.9231 * v <= Shrunk(v, f, 2) <= 0.92312 * v;
    assert 0.8868 * v <= Shrunk(v, f, 3) <= 0.88692 * v;
    assert 0.8520 * v <= Shrunk(v, f, 4) <= 0.85214 * v;
    assert 0.8185 * v <= Shrunk(v, f, 5) <= 0.81873 * v;
    assert 0.7864 * v <= Shrunk(v, f, 6) <= 0.78663 * v;
    assert 0.7555 * v <= Shrunk(v, f, 7) <= 0.75579 * v;
    assert 0.7258 * v <= Shrunk(v, f, 8) <= 0.72616 * v;
    assert 0.6973 * v <= Shrunk(v, f, 9) <= 0.69769 * v;
  }

  lemma {:induction false} ShrunkAgain(x: real, factor: real, j: nat, k: nat)
    ensures Shrunk(x, factor, j + k) == Shrunk(Shrunk(x, factor, j), factor, k)
  {
    if k > 0 {
      ShrunkAgain(x, factor, j, k - 1);
    }
  }

  lemma TenMore(v: real, k: nat)
    requires Shrunk(v, 49.0 / 51.0, k) >= 0.0
    ensures 0.0 <= Shrunk(v, 49.0 / 51.0, k + 10) <= 0.6704 * Shrunk(v, 49.0 / 51.0, k)
  {
    ShrunkAgain(v, 49.0 / 51.0, k, 10);
    LongShrinks(Shrunk(v, 49.0 / 51.0, k));
    hide Shrunk;
  }

  lemma LongShrinksFar(v: real)
    requires v >= 0.0
    ensures Shrunk(v, 49.0 / 51.0, 20) <= 0.4495 * v
    ensures Shrunk(v, 49.0 / 51.0, 80) <= 0.041 * v
  {
    assert Shrunk(v, 49.0 / 51.0, 0) == v;
    hide Shrunk;
    TenMore(v, 0);
    TenMore(v, 10);
    TenMore(v, 20);
    TenMore(v, 30);
    TenMore(v, 40);
    TenMore(v, 50);
    TenMore(v, 60);
    TenMore(v, 70);
  }

  /** The averages have crossed after eleven ticks. */
  lemma CrossedAfterEleven(m: MO.Momentum, y: real, short: real, long: real)
    requires Peak(m, y)
    requires short - y == Shrunk(m.shortEma - y, 9.0 / 11.0, 11) && long - y == Shrunk(m.longEma - y, 49.0 / 51.0, 11)
    ensures Crossed(short, long)
  {
    ShortShrinks(m.shortEma - y);
    LongShrinks(m.longEma - y);
    hide Shrunk;
  }

  // On the machine

  /** No trade so far was one of the other side, so a book that was fed them has no ask. */
  ghost predicate OneSided(s: Loop) {
    OB.SideTrades(TicksIn(s.handled), false) == []
  }

  /** An idle loop that has lost no event. */
  ghost predicate Waiting(s: Loop, capacity: nat) {
    Idle(s) && s.queue.failed == 0 && s.queue.capacity == capacity && OneSided(s)
  }

  lemma NoBookShown(w: Wiring, before: seq<Event>, price: real)
    requires OB.SideTrades(TicksIn(before), false) == []
    ensures Fits(w, before, MarketData(At(price)), NO_BOOK)
    ensures OB.SideTrades(TicksIn(before) + [At(price)], false) == []
  {
    OB.SideTradesOfOneMore(TicksIn(before), At(price));
    hide OB.SideTrades, TicksIn;
  }

  /** The first jump: the strategy's buy waits in the queue. */
  lemma FirstJump(m: Setup, p: Path, s: Loop, x: real, b: Order) returns (p': Path, s': Loop)
    requires Reaches(m, p, s) && Idle(s) && OneSided(s)
    requires React(s.sys, MarketData(At(x)), NO_BOOK).1 == [OrderRequest(b)]
    ensures Reaches(m, p', s') && NearlyIdle(s') && s'.sys == React(s.sys, MarketData(At(x)), NO_BOOK).0
    ensures s'.queue.items == [OrderRequest(b)] && Settled(s, s') && OneSided(s')
  {
    hide Reaches, Run, AllowedRun, React;
    var st := WithTick(s, At(x));
    var p1 := ReachTick(m, p, s, At(x), NO_BOOK);
    assert [] + [MarketData(At(x))] == [MarketData(At(x))];
    NoBookShown(m.wiring, s.handled, x);
    s' := HandleTick(m.wiring, st, NO_BOOK);
    p' := ReachQuietly(m, p1, st, Same(NO_BOOK, 1));
  }

  lemma HandledOne(es: seq<Event>, e: Event)
    ensures TicksIn(es + [e]) == if e.MarketData? then TicksIn(es) + [e.tick] else TicksIn(es)
  {
    assert (es + [e])[..|es|] == es;
  }

  /** The second jump arrives while the buy is taken off the queue, and is handled before the buy gets
      to the exchange. */
  lemma SecondJumpArrives(m: Setup, p: Path, s: Loop, z: real, b: Order) returns (p': Path, s': Loop)
    requires Reaches(m, p, s) && NearlyIdle(s) && OneSided(s) && s.queue.items == [OrderRequest(b)]
    requires React(s.sys, OrderRequest(b), NO_BOOK).1 == [ValidatedOrder(b)]
    requires React(React(s.sys, OrderRequest(b), NO_BOOK).0, MarketData(At(z)), NO_BOOK).1 == []
    ensures Reaches(m, p', s') && NearlyIdle(s') && Underway(s') == [ValidatedOrder(b)]
    ensures Settled(s, s') && OneSided(s')
    ensures s'.sys == React(React(s.sys, OrderRequest(b), NO_BOOK).0, MarketData(At(z)), NO_BOOK).0
  {
    hide Reaches, Run, AllowedRun, React;
    var st := WithTick(s, At(z));
    var p1 := ReachTick(m, p, s, At(z), NO_BOOK);
    var e, t := OrderRequest(b), MarketData(At(z));
    assert [e] + [t] == [e, t] && st.batch == [e, t] && st.batch[1..] == [t];
    HandleServes(m.wiring, st, NO_BOOK);
    var s1 := Run(st, Same(NO_BOOK, 1));
    var p2 := ReachQuietly(m, p1, st, Same(NO_BOOK, 1));
    OneStep(m.wiring, st, NO_BOOK);
    HandleQuiet(st, NO_BOOK);
    assert [] + [ValidatedOrder(b)] == [ValidatedOrder(b)] && [ValidatedOrder(b)] + [] == [ValidatedOrder(b)];
    assert s1.batch == [t] && s1.queue.items == [ValidatedOrder(b)];
    HandledOne(s.handled, e);
    HandledOne(s1.handled, t);
    NoBookShown(m.wiring, s1.handled, z);
    HandleServes(m.wiring, s1, NO_BOOK);
    OneStep(m.wiring, s1, NO_BOOK);
    HandleQuiet(s1, NO_BOOK);
    s' := Run(s1, Same(NO_BOOK, 1));
    p' := ReachQuietly(m, p2, s1, Same(NO_BOOK, 1));
    assert [t][1..] == [];
  }

  /** The buy gets to the exchange, rests, and its report is handled. */
  lemma BuyArrives(m: Setup, p: Path, s: Loop, n: nat, top: real, b: Order) returns (p': Path, s': Loop)
    requires Reaches(m, p, s) && NearlyIdle(s) && OneSided(s) && Underway(s) == [ValidatedOrder(b)]
    requires |s.sys.exchange.resting| == n && Ladder(s.sys.exchange.resting, top)
    requires Rung(b) && b.price >= top + 1.0 && s.sys.exchange.bestAsk > b.price
    ensures Reaches(m, p', s') && Idle(s') && Settled(s, s') && OneSided(s')
    ensures |s'.sys.exchange.resting| == n + 1 && Ladder(s'.sys.exchange.resting, b.price)
    ensures s'.sys.momentum == s.sys.momentum && s'.sys.risk == s.sys.risk
  {
    hide React, Reaches, Ladder, Rounds, WentOn, Rung, AllowedRun, Run;
    BuyRests(s.sys, n, top, b);
    var envs, s1 := ServeRounds(m.wiring, s, NO_BOOK, 2);
    WentOnFacts(m.wiring, s, envs, s1);
    p' := ReachQuietly(m, p, s, envs);
    s' := s1;
  }

  /** Both jumps and what follows: one more buy rests. */
  lemma Jump(m: Setup, p: Path, s: Loop, n: nat, top: real) returns (p': Path, s': Loop, y: real)
    requires Reaches(m, p, s) && Waiting(s, m.capacity)
    requires Stair(s.sys, n, top) && Near(s.sys.momentum, top) && InBand(s.sys.risk)
    ensures Reaches(m, p', s') && Waiting(s', m.capacity) && s'.sys.risk == s.sys.risk
    ensures Plateau(s'.sys, n + 1, y) && y == JumpFrom(top) + 1.0 && top <= s'.sys.momentum.longEma
  {
    var x := JumpFrom(top);
    y := x + 1.0;
    var b := MO.TrendOrder(s.sys.momentum.nextId, Buy, y);
    JumpReacts(s.sys, n, top);
    hide React, Reaches, JumpTo, Rising, Ladder, Rounds, WentOn, Rung, Calm, AllowedRun, Run;
    var p1, s1 := FirstJump(m, p, s, x, b);
    var p2, s2 := SecondJumpArrives(m, p1, s1, JumpTo(y), b);
    p', s' := BuyArrives(m, p2, s2, n, top, b);
  }

  /** k ticks at the higher price. */
  lemma {:induction false} Up(m: Setup, p: Path, s: Loop, n: nat, y: real, k: nat) returns (p': Path, s': Loop)
    requires Reaches(m, p, s) && Waiting(s, m.capacity) && Plateau(s.sys, n, y)
    ensures Reaches(m, p', s') && Waiting(s', m.capacity) && Plateau(s'.sys, n, y) && s'.sys.risk == s.sys.risk
    ensures JumpTo(y) - s'.sys.momentum.longEma == Shrunk(JumpTo(y) - s.sys.momentum.longEma, 49.0 / 51.0, k)
  {
    hide React, Reaches, Plateau, Rounds, JumpTo;
    if k == 0 {
      p', s' := p, s;
    } else {
      var p1, s1 := Up(m, p, s, n, y, k - 1);
      PlateauTick(s1.sys, n, y);
      NoBookShown(m.wiring, s1.handled, JumpTo(y));
      p', s' := ReachAfterTick(m, p1, s1, At(JumpTo(y)), NO_BOOK);
    }
  }

  /** Twenty of them are enough. */
  lemma PlateauEnds(c: System, n: nat, top: real, y: real, long: real)
    requires Plateau(c, n, y) && BASE <= top && y == JumpFrom(top) + 1.0 && top <= long <= JumpTo(y)
    requires JumpTo(y) - c.momentum.longEma == Shrunk(JumpTo(y) - long, 49.0 / 51.0, 20)
    ensures Peak(c.momentum, y) && Slope(c, n, y)
  {
    LongShrinksFar(JumpTo(y) - long);
    hide Shrunk, Ladder;
  }

  /** k ticks at the price of the last buy. */
  lemma {:induction false} Down(m: Setup, p: Path, s: Loop, n: nat, y: real, k: nat) returns (p': Path, s': Loop)
    requires Reaches(m, p, s) && Waiting(s, m.capacity) && Slope(s.sys, n, y)
    ensures Reaches(m, p', s') && Waiting(s', m.capacity) && Slope(s'.sys, n, y)
    ensures s'.sys.risk.maxPosition == s.sys.risk.maxPosition
    ensures s'.sys.momentum.shortEma - y == Shrunk(s.sys.momentum.shortEma - y, 9.0 / 11.0, k)
    ensures s'.sys.momentum.longEma - y == Shrunk(s.sys.momentum.longEma - y, 49.0 / 51.0, k)
    ensures s'.sys.momentum.open ==> s.sys.momentum.open
    ensures k > 0 && s'.sys.momentum.open ==> !Crossed(s'.sys.momentum.shortEma, s'.sys.momentum.longEma)
  {
    hide React, Reaches, Slope, Crossed, Rounds;
    if k == 0 {
      p', s' := p, s;
    } else {
      var p1, s1 := Down(m, p, s, n, y, k - 1);
      SlopeTick(s1.sys, n, y);
      NoBookShown(m.wiring, s1.handled, y);
      p', s' := ReachAfterTick(m, p1, s1, At(y), NO_BOOK);
    }
  }

  /** One step of the staircase, about one percent up. */
  lemma Climb(m: Setup, p: Path, s: Loop, n: nat, top: real) returns (p': Path, s': Loop, y: real)
    requires Reaches(m, p, s) && Waiting(s, m.capacity)
    requires Stair(s.sys, n, top) && Near(s.sys.momentum, top) && InBand(s.sys.risk)
    ensures Reaches(m, p', s') && Waiting(s', m.capacity) && y == JumpFrom(top) + 1.0
    ensures Stair(s'.sys, n + 1, y) && Near(s'.sys.momentum, y) && InBand(s'.sys.risk)
    ensures s'.sys.risk.maxPosition == s.sys.risk.maxPosition
  {
    hide Reaches, Ladder, Crossed, Shrunk, Waiting, JumpFrom, JumpTo;
    var p1, s1;
    p1, s1, y := Jump(m, p, s, n, top);
    var p2, s2 := Up(m, p1, s1, n + 1, y, 20);
    PlateauEnds(s2.sys, n + 1, top, y, s1.sys.momentum.longEma);
    p', s' := Settle(m, p2, s2, n + 1, y);
  }

  /** Back at the price of the last buy: the sell, and then long enough for the averages to follow. */
  lemma Settle(m: Setup, p: Path, s: Loop, n: nat, y: real) returns (p': Path, s': Loop)
    requires Reaches(m, p, s) && Waiting(s, m.capacity) && Peak(s.sys.momentum, y) && Slope(s.sys, n, y)
    ensures Reaches(m, p', s') && Waiting(s', m.capacity)
    ensures Stair(s'.sys, n, y) && Near(s'.sys.momentum, y) && InBand(s'.sys.risk)
    ensures s'.sys.risk.maxPosition == s.sys.risk.maxPosition
  {
    hide Reaches, Ladder, Crossed, Shrunk, Waiting;
    var p1, s1 := Down(m, p, s, n, y, 11);
    CrossedAfterEleven(s.sys.momentum, y, s1.sys.momentum.shortEma, s1.sys.momentum.longEma);
    p', s' := Down(m, p1, s1, n, y, 80);
    LongShrinksFar(s1.sys.momentum.longEma - y);
    LongShrinks(s.sys.momentum.longEma - y);
  }

  // The way to the first step

  /** 49 ticks at one price: the averages are there, one tick before the first signal may come. */
  ghost predicate Warming(c: System, k: nat) {
    && k < MO.WARM_UP && c.momentum.count == k && !c.momentum.open
    && (k > 0 ==> c.momentum.shortEma == BASE == c.momentum.longEma)
    && c.exchange.resting == [] && c.risk.position == 0.0
  }

  lemma WarmingTick(c: System, k: nat)
    requires Warming(c, k) && k + 1 < MO.WARM_UP
    ensures React(c, MarketData(At(BASE)), NO_BOOK).1 == []
    ensures var (c', left) := AfterTick(c, At(BASE), NO_BOOK);
            left == [] && Warming(c', k + 1) && c'.risk == c.risk
  {
    TickAbove(c, BASE, BASE);
    var c1 := React(c, MarketData(At(BASE)), NO_BOOK).0;
    var m1 := MO.Updated(c.momentum, BASE);
    assert k > 0 ==> m1.shortEma == BASE * (2.0 / 11.0) + BASE * (9.0 / 11.0);
    assert k > 0 ==> m1.longEma == BASE * (2.0 / 51.0) + BASE * (49.0 / 51.0);
    hide React, Rounds;
    NothingLeft(c1, NO_BOOK, 3);
    RequestsOf([]);
  }

  lemma {:induction false} WarmUp(m: Setup, k: nat) returns (p: Path, s: Loop)
    requires m.capacity >= 1 && k < MO.WARM_UP
    ensures Reaches(m, p, s) && Waiting(s, m.capacity) && Warming(s.sys, k) && s.sys.risk.maxPosition == m.maxPosition
  {
    hide Reaches, React, Rounds;
    if k == 0 {
      p, s := Path([], []), Origin(m, []);
      StartIsReached(m);
    } else {
      var p1, s1 := WarmUp(m, k - 1);
      WarmingTick(s1.sys, k - 1);
      NoBookShown(m.wiring, s1.handled, BASE);
      p, s := ReachAfterTick(m, p1, s1, At(BASE), NO_BOOK);
    }
  }

  /** For every n the loop gets to n resting buys, with the position still in the band. */
  lemma {:induction false} Staircase(m: Setup, n: nat) returns (p: Path, s: Loop, top: real)
    requires m.capacity >= 1 && m.maxPosition >= MO.LOT
    ensures Reaches(m, p, s) && Waiting(s, m.capacity) && Stair(s.sys, n, top) && InBand(s.sys.risk)
    ensures Near(s.sys.momentum, top) && s.sys.risk.maxPosition == m.maxPosition
  {
    hide Reaches;
    if n == 0 {
      p, s := WarmUp(m, MO.WARM_UP - 1);
      top := BASE;
    } else {
      hide Stair, InBand, Near;
      var p1, s1, top1 := Staircase(m, n - 1);
      p, s, top := Climb(m, p1, s1, n - 1, top1);
    }
  }

  // The way down

  /** A price at which just the highest buy fills. */
  function FallTo(rs: seq<Order>): real
    requires rs != []
  {
    rs[|rs| - 1].price - EX.SPREAD / 2.0
  }

  predicate BuyReport(e: Event) {
    e.ExecutionReport? && e.report.status.Filled? && e.report.side.Buy? && e.report.lastQty == MO.LOT
  }

  /** The ladder and the averages at that price. */
  lemma {:induction false} FallingParts(rs: seq<Order>, m: MO.Momentum, top: real)
    requires rs != [] && Ladder(rs, top) && Calm(m, top)
    ensures var n, f := |rs| - 1, FallTo(rs);
            var bid, ask := f - EX.SPREAD / 2.0, f + EX.SPREAD / 2.0;
            var (m', orders) := MO.OnPrice(m, f);
            EX.Select(rs, bid, ask, true) == [rs[n]] && EX.Select(rs, bid, ask, false) == rs[..n] &&
            Ladder(rs[..n], f - 0.75) && Calm(m', f - 0.75) && orders == [] && Rung(rs[n])
  {
    var n, f := |rs| - 1, FallTo(rs);
    hide Calm, EX.Select, MO.OnPrice;
    assert Rung(rs[n]) && rs[n].price <= top;
    hide Ladder;
    FallingSignal(m, top, f);
    TopOfLadder(rs, top, f - EX.SPREAD / 2.0, f + EX.SPREAD / 2.0);
  }

  lemma FallingReact(c: System, n: nat, top: real)
    requires Stair(c, n + 1, top)
    ensures var f := FallTo(c.exchange.resting);
            var (c', out) := React(c, MarketData(At(f)), NO_BOOK);
            |out| == 1 && BuyReport(out[0]) && Stair(c', n, f - 0.75) && c'.risk == c.risk
  {
    hide React, Ladder, Calm, EX.Select, EX.Fills, MO.OnPrice, MO.Requests, EX.AsEvents, FallTo, Rung, BuyReport;
    var rs := c.exchange.resting;
    var f := FallTo(rs);
    FallingParts(rs, c.momentum, top);
    TickScene(c, f);
    OneFill(rs[n], f - EX.SPREAD / 2.0, f + EX.SPREAD / 2.0, c.exchange.nextTradeId);
  }

  lemma FillApplied(c: System, e: Event)
    requires BuyReport(e)
    ensures var (c', left) := Rounds(c, [e], NO_BOOK, 3);
            left == [] && SceneOf(c') == SceneOf(c).(risk := c'.risk) &&
            c'.risk == RE.Moved(c.risk, MO.LOT)
  {
    hide React, Absorb, RE.Moved;
    ReportScene(c, e.report);
    AbsorbOne(c, e, NO_BOOK);
    ThreeRounds(c, [e], NO_BOOK);
    hide Rounds;
    AbsorbNone(React(c, e, NO_BOOK).0, NO_BOOK);
  }

  lemma FallingTick(c: System, n: nat, top: real)
    requires Stair(c, n + 1, top)
    ensures var f := FallTo(c.exchange.resting);
            |React(c, MarketData(At(f)), NO_BOOK).1| <= 1 &&
            var (c', left) := AfterTick(c, At(f), NO_BOOK);
            left == [] && Stair(c', n, f - 0.75) && c'.risk.position == c.risk.position + MO.LOT
  {
    hide React, Ladder, Rounds, Calm, BuyReport, FallTo;
    var f := FallTo(c.exchange.resting);
    FallingReact(c, n, top);
    var (c1, out) := React(c, MarketData(At(f)), NO_BOOK);
    assert out == [out[0]];
    FillApplied(c1, out[0]);
  }

  lemma FallingSignal(m: MO.Momentum, top: real, f: real)
    requires Calm(m, top) && 1.75 <= f <= top
    ensures var (m', orders) := MO.OnPrice(m, f); orders == [] && Calm(m', f - 0.75)
  {
    var m1 := MO.Updated(m, f);
    assert m1.shortEma == f * (2.0 / 11.0) + m.shortEma * (9.0 / 11.0);
    assert m1.longEma == f * (2.0 / 51.0) + m.longEma * (49.0 / 51.0);
    assert !MO.Bullish(m1);
  }

  lemma OneFill(o: Order, bid: real, ask: real, id: nat)
    requires Rung(o)
    ensures var es := MO.Requests([]) + EX.AsEvents(EX.Fills([o], bid, ask, id));
            |es| == 1 && BuyReport(es[0])
  {
    assert [o][..0] == [];
  }

  /** All n buys fill, one tick after the other. */
  lemma {:induction false} Descend(m: Setup, p: Path, s: Loop, n: nat, top: real) returns (p': Path, s': Loop)
    requires Reaches(m, p, s) && Waiting(s, m.capacity) && Stair(s.sys, n, top)
    ensures Reaches(m, p', s') && Waiting(s', m.capacity)
    ensures s'.sys.risk.position == s.sys.risk.position + n as real * MO.LOT && s'.sys.exchange.resting == []
    decreases n
  {
    hide Reaches, React, Rounds, Ladder, Calm;
    if n == 0 {
      p', s' := p, s;
    } else {
      FallingTick(s.sys, n - 1, top);
      var f := FallTo(s.sys.exchange.resting);
      hide Stair, FallTo;
      NoBookShown(m.wiring, s.handled, f);
      var p1, s1 := ReachAfterTick(m, p, s, At(f), NO_BOOK);
      p', s' := Descend(m, p1, s1, n - 1, f - 0.75);
    }
  }

  // What this comes to

  /** Fed book or not, with any limit that lets a single order through and any queue at all: for every
      bound there is a run without a failed push that takes the position beyond it, with no order left
      at the exchange and no event under way. */
  lemma PositionIsUnbounded(w: Wiring, capacity: nat, maxPosition: real, bound: real)
    requires capacity >= 1 && maxPosition >= 0.5
    ensures exists feed, envs ::
              AllowedRun(w, Start(capacity, feed, maxPosition), envs) &&
              var s := Run(Start(capacity, feed, maxPosition), envs);
              s.sys.risk.position > bound && s.queue.failed == 0 &&
              s.sys.exchange.resting == [] && Underway(s) == []
  {
    hide Run, AllowedRun, Reaches, Stair, OneSided;
    var m := Setup(w, capacity, maxPosition);
    var n: nat := if bound + maxPosition < 0.0 then 0 else (2.0 * (bound + maxPosition)).Floor + 1;
    var p, s, top := Staircase(m, n);
    var p', s' := Descend(m, p, s, n, top);
    ReachedNow(m, p', s');
    assert Origin(m, p'.feed) == Start(capacity, p'.feed, maxPosition);
    EnoughBuys(n, s.sys.risk.position, maxPosition, bound);
    assert AllowedRun(w, Start(capacity, p'.feed, maxPosition), p'.envs);
    assert Run(Start(capacity, p'.feed, maxPosition), p'.envs) == s';
  }

  lemma EnoughBuys(n: nat, position: real, limit: real, bound: real)
    requires position >= -limit
    requires n == if bound + limit < 0.0 then 0 else (2.0 * (bound + limit)).Floor + 1
    ensures position + n as real * MO.LOT > bound
  {
  }

  /** With the limit of 100 and the ring of 1024 slots of main.cpp, and no book as there. */
  lemma ConfiguredLimitIsPassed()
    ensures exists feed, envs ::
              AllowedRun(AsWired, Start(1023, feed, 100.0), envs) &&
              Run(Start(1023, feed, 100.0), envs).sys.risk.position > 100.0
  {
    PositionIsUnbounded(AsWired, 1023, 100.0, 100.0);
    hide Run, AllowedRun;
  }
}
