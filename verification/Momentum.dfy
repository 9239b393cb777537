/** The moving-average crossover strategy (strategy/momentum_strategy.hpp). */
module Momentums {
  import opened Events
  import opened EventQueues

  datatype Momentum = Momentum(shortEma: real, longEma: real, count: nat, open: bool, nextId: nat)

  const FIRST_ID: nat := 2_000_000
  const STRATEGY: nat := 2
  const LOT := 0.5
  const WARM_UP: nat := 50
  const ALPHA_10 := 2.0 / 11.0
  const ALPHA_50 := 2.0 / 51.0

  const NEW_MOMENTUM := Momentum(0.0, 0.0, 0, false, FIRST_ID)

  function Updated(m: Momentum, price: real): Momentum {
    if m.count == 0 then m.(shortEma := price, longEma := price, count := 1)
    else
      m.(shortEma := price * ALPHA_10 + m.shortEma * (1.0 - ALPHA_10),
         longEma := price * ALPHA_50 + m.longEma * (1.0 - ALPHA_50),
         count := m.count + 1)
  }

  predicate Bullish(m: Momentum) {
    m.shortEma > m.longEma * 1.0001 && !m.open
  }

  predicate Bearish(m: Momentum) {
    m.shortEma < m.longEma * 0.9999 && m.open
  }

  function TrendOrder(id: nat, side: Side, price: real): Order {
    Order(id, STRATEGY, side, Limit, price, LOT)
  }

  /** `on_market_data`: the new state and the orders sent (at most one). */
  function OnPrice(m: Momentum, price: real): (Momentum, seq<Order>) {
    var m1 := Updated(m, price);
    if m1.count < WARM_UP then (m1, [])
    else if Bullish(m1) then
      (m1.(open := true, nextId := m1.nextId + 1), [TrendOrder(m1.nextId, Buy, price + 1.0)])
    else if Bearish(m1) then
      (m1.(open := false, nextId := m1.nextId + 1), [TrendOrder(m1.nextId, Sell, price - 1.0)])
    else (m1, [])
  }

  function Requests(os: seq<Order>): (es: seq<Event>)
    ensures |es| == |os| && forall i :: 0 <= i < |os| ==> es[i] == OrderRequest(os[i])
  {
    seq(|os|, i requires 0 <= i < |os| => OrderRequest(os[i]))
  }

  class MomentumStrategy {
    const queue: EventQueue
    var shortEma: real
    var longEma: real
    var count: nat
    var positionOpen: bool
    var nextId: nat

    ghost function View(): Momentum
      reads this
    {
      Momentum(shortEma, longEma, count, positionOpen, nextId)
    }

    constructor (queue: EventQueue)
      ensures View() == NEW_MOMENTUM && this.queue == queue
    {
      this.queue := queue;
      shortEma, longEma, count, positionOpen, nextId := 0.0, 0.0, 0, false, FIRST_ID;
    }

    method SubmitOrder(side: Side, price: real)
      modifies `nextId, queue
      ensures nextId == old(nextId) + 1
      ensures queue.View() == AfterPush(old(queue.View()), OrderRequest(TrendOrder(old(nextId), side, price)))
    {
      var id := nextId;
      nextId := nextId + 1;
      var _ := queue.Push(OrderRequest(TrendOrder(id, side, price)));
    }

    method OnMarketData(price: real)
      modifies this, queue
      ensures View() == OnPrice(old(View()), price).0
      ensures queue.View() == AfterPushes(old(queue.View()), Requests(OnPrice(old(View()), price).1))
    {
      ghost var sent := OnPrice(View(), price).1;
      assert |sent| == 1 ==> Requests(sent)[..0] == [];
      shortEma := if count == 0 then price else price * ALPHA_10 + shortEma * (1.0 - ALPHA_10);
      longEma := if count == 0 then price else price * ALPHA_50 + longEma * (1.0 - ALPHA_50);
      count := count + 1;
      if count < WARM_UP {
        return;
      }
      var bullish := shortEma > longEma * 1.0001 && !positionOpen;
      var bearish := shortEma < longEma * 0.9999 && positionOpen;
      if bullish {
        SubmitOrder(Buy, price + 1.0);
        positionOpen := true;
      } else if bearish {
        SubmitOrder(Sell, price - 1.0);
        positionOpen := false;
      }
    }
  }

  // Runs over a price stream

  function Run(prices: seq<real>): (Momentum, seq<Order>) {
    if prices == [] then (NEW_MOMENTUM, [])
    else
      var (m, os) := Run(prices[..|prices| - 1]);
      var (m', more) := OnPrice(m, prices[|prices| - 1]);
      (m', os + more)
  }

  /** Both averages stay inside any bounds the prices stay inside, in particular between their
      minimum and maximum. */
  lemma {:induction false} AveragesStayInRange(prices: seq<real>, lo: real, hi: real)
    requires prices != [] && forall p :: p in prices ==> lo <= p <= hi
    ensures lo <= Run(prices).0.shortEma <= hi
    ensures lo <= Run(prices).0.longEma <= hi
    ensures Run(prices).0.count == |prices|
  {
    var n := |prices| - 1;
    assert prices[n] in prices;
    if n > 0 {
      assert forall p :: p in prices[..n] ==> p in prices;
      AveragesStayInRange(prices[..n], lo, hi);
    }
  }

  /** Orders alternate Buy, Sell, Buy, ... with consecutive ids and a fixed quantity, and none is
      sent before the 50th tick. */
  lemma {:induction false} OrdersAlternate(prices: seq<real>)
    ensures var (m, os) := Run(prices);
            m.count == |prices| && m.nextId == 2_000_000 + |os| && m.open == (|os| % 2 == 1) &&
            (|prices| < 50 ==> os == []) &&
            forall i :: 0 <= i < |os| ==>
              os[i].id == 2_000_000 + i && os[i].quantity == 0.5 && os[i].side == if i % 2 == 0 then Buy else Sell
  {
    if prices != [] {
      var before := prices[..|prices| - 1];
      OrdersAlternate(before);
      hide Bullish, Bearish;
      var os := Run(before).1;
      if os == [] {
        assert 0 % 2 == 0;
      }
    }
  }

  /** On a non-decreasing positive stream the short average is never below the long one, so at
      most one order is sent, a Buy. */
  lemma {:induction false} RisingPricesBuyOnce(prices: seq<real>)
    requires forall i, j :: 0 <= i <= j < |prices| ==> 0.0 < prices[i] <= prices[j]
    ensures var (m, os) := Run(prices);
            (prices != [] ==> 0.0 < m.longEma <= m.shortEma <= prices[|prices| - 1] && m.count > 0) &&
            |os| <= 1 && m.open == (|os| == 1) && (os != [] ==> os[0].side.Buy?)
  {
    if prices != [] {
      RisingPricesBuyOnce(prices[..|prices| - 1]);
    }
  }

  /** On a non-increasing positive stream no order is ever sent. */
  lemma {:induction false} FallingPricesSendNothing(prices: seq<real>)
    requires forall i, j :: 0 <= i <= j < |prices| ==> 0.0 < prices[j] <= prices[i]
    ensures var (m, os) := Run(prices);
            (prices != [] ==> prices[|prices| - 1] <= m.shortEma <= m.longEma && m.count > 0) &&
            os == [] && !m.open
  {
    if prices != [] {
      FallingPricesSendNothing(prices[..|prices| - 1]);
    }
  }

  // When a signal is given

  function Power(x: real, n: nat): real {
    if n == 0 then 1.0 else Power(x, n - 1) * x
  }

  /** The weight of the i-th of n prices in an exponential average: the first price starts it, each
      later one enters with `alpha`, and all fade by 1 - alpha with every price that follows. */
  function WeightOf(i: nat, n: nat, alpha: real): real
    requires i < n
  {
    (if i == 0 then 1.0 else alpha) * Power(1.0 - alpha, n - 1 - i)
  }

  function Term(price: real, weight: real): real {
    price * weight
  }

  /** The first k terms of the weighted sum of all prices. */
  function WeightedSum(prices: seq<real>, alpha: real, k: nat): real
    requires k <= |prices|
  {
    if k == 0 then 0.0
    else WeightedSum(prices, alpha, k - 1) + Term(prices[k - 1], WeightOf(k - 1, |prices|, alpha))
  }

  /** The exponential average of a price history, as one sum. */
  function Average(prices: seq<real>, alpha: real): real {
    WeightedSum(prices, alpha, |prices|)
  }

  lemma WeightFades(i: nat, n: nat, alpha: real, price: real)
    requires i < n
    ensures Term(price, WeightOf(i, n + 1, alpha)) == Term(Term(price, WeightOf(i, n, alpha)), 1.0 - alpha)
  {
    var first, power, fade := if i == 0 then 1.0 else alpha, Power(1.0 - alpha, n - 1 - i), 1.0 - alpha;
    assert Power(fade, n - i) == power * fade;
    assert price * (first * (power * fade)) == price * (first * power) * fade;
  }

  lemma BothFade(x: real, y: real, fade: real)
    ensures Term(x + y, fade) == Term(x, fade) + Term(y, fade)
  {
  }

  lemma {:induction false} SumFades(prices: seq<real>, price: real, alpha: real, k: nat)
    requires k <= |prices|
    ensures WeightedSum(prices + [price], alpha, k) == Term(WeightedSum(prices, alpha, k), 1.0 - alpha)
  {
    assert Term(0.0, 1.0 - alpha) == 0.0;
    hide Term, WeightOf;
    if k > 0 {
      SumFades(prices, price, alpha, k - 1);
      WeightFades(k - 1, |prices|, alpha, prices[k - 1]);
      assert (prices + [price])[k - 1] == prices[k - 1];
      BothFade(WeightedSum(prices, alpha, k - 1), Term(prices[k - 1], WeightOf(k - 1, |prices|, alpha)), 1.0 - alpha);
    }
  }

  /** One more price: everything so far fades and the price enters. */
  lemma AverageMoves(prices: seq<real>, price: real, alpha: real)
    ensures Average(prices + [price], alpha) ==
            if prices == [] then price else price * alpha + Average(prices, alpha) * (1.0 - alpha)
  {
    SumFades(prices, price, alpha, |prices|);
    assert Power(1.0 - alpha, 0) == 1.0;
    assert WeightOf(|prices|, |prices| + 1, alpha) == if prices == [] then 1.0 else alpha;
    hide WeightOf, Power;
  }

  /** The two averages the strategy keeps are those of the whole history. */
  lemma {:induction false} AveragesAreSums(prices: seq<real>)
    requires prices != []
    ensures Run(prices).0.shortEma == Average(prices, 2.0 / 11.0)
    ensures Run(prices).0.longEma == Average(prices, 2.0 / 51.0)
    ensures Run(prices).0.count == |prices|
  {
    var n := |prices| - 1;
    AverageMoves(prices[..n], prices[n], 2.0 / 11.0);
    AverageMoves(prices[..n], prices[n], 2.0 / 51.0);
    assert prices == prices[..n] + [prices[n]];
    if n > 0 {
      AveragesAreSums(prices[..n]);
    }
    hide Average;
  }

  /** What is sent at any price of any history: a buy of 0.5 one above the price exactly if it is the
      50th price or a later one, everything bought before was sold again, and the short average is more
      than 0.01% above the long one; a sell one below the price exactly if something bought is still
      held and the short average is more than 0.01% below; otherwise nothing. */
  lemma {:induction false} SignalsExactly(prices: seq<real>)
    requires prices != []
    ensures var n, price := |prices|, prices[|prices| - 1];
            var short, long := Average(prices, 2.0 / 11.0), Average(prices, 2.0 / 51.0);
            var before := Run(prices[..n - 1]).1;
            var holding := |before| % 2 == 1;
            Run(prices).1 == before +
              if n >= 50 && !holding && short > 1.0001 * long then
                [Order(2_000_000 + |before|, 2, Buy, Limit, price + 1.0, 0.5)]
              else if n >= 50 && holding && short < 0.9999 * long then
                [Order(2_000_000 + |before|, 2, Sell, Limit, price - 1.0, 0.5)]
              else []
  {
    hide Average, OnPrice;
    var n := |prices| - 1;
    var (m, before) := Run(prices[..n]);
    var (m', sent) := OnPrice(m, prices[n]);
    assert Run(prices) == (m', before + sent);
    AfterHistory(prices[..n]);
    AfterHistory(prices);
    AveragesAreSums(prices);
    hide Run;
    SentOn(m, prices[n]);
  }

  lemma {:induction false} AfterHistory(prices: seq<real>)
    ensures var (m, os) := Run(prices);
            m.count == |prices| && m.nextId == 2_000_000 + |os| && m.open == (|os| % 2 == 1)
  {
    OrdersAlternate(prices);
  }

  lemma SentOn(m: Momentum, price: real)
    ensures var (m', sent) := OnPrice(m, price);
            var short, long := m'.shortEma, m'.longEma;
            sent ==
              if m'.count >= 50 && !m.open && short > 1.0001 * long then
                [Order(m.nextId, 2, Buy, Limit, price + 1.0, 0.5)]
              else if m'.count >= 50 && m.open && short < 0.9999 * long then
                [Order(m.nextId, 2, Sell, Limit, price - 1.0, 0.5)]
              else []
  {
  }

  /** In a market that stays within 0.01% no order is ever sent. */
  lemma {:induction false} NarrowBandSendsNothing(prices: seq<real>, lo: real, hi: real)
    requires 0.0 < lo && hi <= 1.0001 * lo && forall p :: p in prices ==> lo <= p <= hi
    ensures Run(prices).1 == [] && !Run(prices).0.open
  {
    if prices != [] {
      var before := prices[..|prices| - 1];
      assert forall p :: p in before ==> p in prices;
      NarrowBandSendsNothing(before, lo, hi);
      AveragesStayInRange(prices, lo, hi);
    }
  }
}
