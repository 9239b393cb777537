/**
 The top-of-book arrays rebuilt from trades (orderbook/order_book.cpp), checked against what
 they mean in terms of the trade history alone.
 */
module OrderBooks {
  import opened Events

  datatype Level = Level(price: real, quantity: real)

  const MAX_LEVELS: nat := 100

  // What the book is, from the trade history

  /** The trades of one side: bids come from buyer-maker trades, asks from the others. */
  function SideTrades(trades: seq<Tick>, maker: bool): seq<Tick> {
    if trades == [] then []
    else
      var t := trades[|trades| - 1];
      SideTrades(trades[..|trades| - 1], maker) + if t.buyerMaker == maker then [t] else []
  }

  /** All prices traded at, in order of first appearance. */
  function DistinctPrices(trades: seq<Tick>): seq<real> {
    if trades == [] then []
    else
      var ps := DistinctPrices(trades[..|trades| - 1]);
      var p := trades[|trades| - 1].price;
      if p in ps then ps else ps + [p]
  }

  function KeptPrices(trades: seq<Tick>): seq<real> {
    var ps := DistinctPrices(trades);
    if |ps| <= MAX_LEVELS then ps else ps[..MAX_LEVELS]
  }

  /** The quantity of the most recent trade at `price`, 0 if there was none. */
  function LastQuantity(trades: seq<Tick>, price: real): real {
    if trades == [] then 0.0
    else if trades[|trades| - 1].price == price then trades[|trades| - 1].quantity
    else LastQuantity(trades[..|trades| - 1], price)
  }

  function Volume(trades: seq<Tick>): real {
    if trades == [] then 0.0 else Volume(trades[..|trades| - 1]) + trades[|trades| - 1].quantity
  }

  predicate Better(descending: bool, p: real, q: real) {
    if descending then p > q else p < q
  }

  ghost predicate StrictlyOrdered(levels: seq<Level>, descending: bool) {
    forall i, j :: 0 <= i < j < |levels| ==> Better(descending, levels[i].price, levels[j].price)
  }

  /** `levels` is the book side the history stands for: strictly ordered, one level for each of
      the first MAX_LEVELS distinct prices, each with the last quantity traded there. */
  ghost predicate IsSide(levels: seq<Level>, trades: seq<Tick>, descending: bool) {
    && StrictlyOrdered(levels, descending)
    && forall l {:trigger l in levels} ::
         l in levels <==> l.price in KeptPrices(trades) && l.quantity == LastQuantity(trades, l.price)
  }

  /** The history determines the side, whatever sorting algorithm arranged it. */
  lemma {:induction false} OrderedIsUnique(a: seq<Level>, b: seq<Level>, descending: bool)
    requires StrictlyOrdered(a, descending) && StrictlyOrdered(b, descending)
    requires forall l :: l in a <==> l in b
    ensures a == b
  {
    assert b == [] || b[0] in b;
    if a != [] {
      assert a[0] in a;
      assert a[0] in b;
      assert b[0] in a;
      assert a[0] == b[0];
      forall l ensures l in a[1..] <==> l in b[1..] {
        assert l in a[1..] <==> l in a && l != a[0];
        assert l in b[1..] <==> l in b && l != b[0];
      }
      OrderedIsUnique(a[1..], b[1..], descending);
    }
  }

  lemma SideIsUnique(a: seq<Level>, b: seq<Level>, trades: seq<Tick>, descending: bool)
    requires IsSide(a, trades, descending) && IsSide(b, trades, descending)
    ensures a == b
  {
    OrderedIsUnique(a, b, descending);
  }

  lemma {:induction false} DistinctPricesGrow(trades: seq<Tick>, n: nat)
    requires n <= |trades|
    ensures DistinctPrices(trades[..n]) <= DistinctPrices(trades)
    ensures forall p :: p in KeptPrices(trades[..n]) ==> p in KeptPrices(trades)
    decreases |trades| - n
  {
    if n == |trades| {
      assert trades[..n] == trades;
    } else {
      assert trades[..n + 1][..n] == trades[..n];
      DistinctPricesGrow(trades, n + 1);
    }
    var ps, qs := DistinctPrices(trades[..n]), DistinctPrices(trades);
    forall p | p in KeptPrices(trades[..n]) ensures p in KeptPrices(trades) {
      var i :| 0 <= i < |ps| && i < MAX_LEVELS && ps[i] == p;
      assert qs[i] == p;
    }
  }

  /** Over any stretch of trading the best price of a side never gets worse: the best bid never
      falls and the best ask never rises. */
  lemma BestOnlyImproves(a: seq<Level>, b: seq<Level>, trades: seq<Tick>, n: nat, descending: bool)
    requires n <= |trades|
    requires IsSide(a, trades[..n], descending) && IsSide(b, trades, descending) && a != []
    ensures b != [] && !Better(descending, a[0].price, b[0].price)
  {
    DistinctPricesGrow(trades, n);
    assert a[0] in a;
    var l := Level(a[0].price, LastQuantity(trades, a[0].price));
    assert l in b;
    var i :| 0 <= i < |b| && b[i] == l;
  }

  lemma {:induction false} SideTradesPrefix(trades: seq<Tick>, n: nat, maker: bool)
    requires n <= |trades|
    ensures var all := SideTrades(trades, maker); var some := SideTrades(trades[..n], maker);
            |some| <= |all| && some == all[..|some|]
    decreases |trades| - n
  {
    if n == |trades| {
      assert trades[..n] == trades;
    } else {
      SideTradesPrefix(trades, n + 1, maker);
      assert trades[..n + 1][..n] == trades[..n];
    }
  }

  /** Books of an earlier and a later moment of one run: the spread never widens. */
  lemma {:induction false} SpreadNeverWidens(
      bids: seq<Level>, asks: seq<Level>, bids': seq<Level>, asks': seq<Level>, trades: seq<Tick>, n: nat)
    requires n <= |trades| && bids != [] && asks != []
    requires IsSide(bids, SideTrades(trades[..n], true), true) && IsSide(bids', SideTrades(trades, true), true)
    requires IsSide(asks, SideTrades(trades[..n], false), false) && IsSide(asks', SideTrades(trades, false), false)
    ensures bids' != [] && asks' != []
    ensures bids'[0].price >= bids[0].price && asks'[0].price <= asks[0].price
    ensures asks'[0].price - bids'[0].price <= asks[0].price - bids[0].price
  {
    SideTradesPrefix(trades, n, true);
    SideTradesPrefix(trades, n, false);
    BestOnlyImproves(bids, bids', SideTrades(trades, true), |SideTrades(trades[..n], true)|, true);
    BestOnlyImproves(asks, asks', SideTrades(trades, false), |SideTrades(trades[..n], false)|, false);
  }

  /** What one more trade does to its side: the level at its price gets its quantity, a new price gets a
      level while there are fewer than a hundred, and every other level stays as it was. */
  lemma {:induction false} TradeChangesOneLevel(
      a: seq<Level>, b: seq<Level>, trades: seq<Tick>, t: Tick, descending: bool)
    requires IsSide(a, trades, descending) && IsSide(b, trades + [t], descending)
    ensures forall l :: l in b ==> if l.price == t.price then l.quantity == t.quantity else l in a
    ensures forall l :: l in a && l.price != t.price ==> l in b
    ensures Level(t.price, t.quantity) in b <==> |a| < 100 || exists l :: l in a && l.price == t.price
  {
    assert (trades + [t])[..|trades|] == trades;
    var ps, qs := DistinctPrices(trades), DistinctPrices(trades + [t]);
    assert qs == if t.price in ps then ps else ps + [t.price];
    LevelsAreCounted(a, trades, descending);
    assert forall p :: LastQuantity(trades + [t], p) == if p == t.price then t.quantity else LastQuantity(trades, p);
    forall p | p != t.price ensures p in KeptPrices(trades) <==> p in KeptPrices(trades + [t]) {
      KeptOneMore(trades, t, p);
    }
    KeptOneMore(trades, t, t.price);
    hide DistinctPrices, LastQuantity, KeptPrices;
    if t.price in KeptPrices(trades) {
      assert Level(t.price, LastQuantity(trades, t.price)) in a;
    }
  }

  lemma KeptOneMore(trades: seq<Tick>, t: Tick, p: real)
    ensures p in KeptPrices(trades + [t]) <==>
            p in KeptPrices(trades) || (p == t.price && |DistinctPrices(trades)| < 100)
  {
    assert (trades + [t])[..|trades|] == trades;
    var ps, qs := DistinctPrices(trades), DistinctPrices(trades + [t]);
    assert qs == if t.price in ps then ps else ps + [t.price];
    if |ps| >= 100 {
      assert qs[..100] == ps[..100];
    }
  }

  // One trade

  /** What find-or-append leaves before it is sorted. */
  ghost predicate Updated(before: seq<Level>, after: seq<Level>, price: real, quantity: real) {
    if exists i :: 0 <= i < |before| && before[i].price == price then
      exists i :: 0 <= i < |before| && before[i].price == price && after == before[i := Level(price, quantity)]
    else
      after == if |before| < MAX_LEVELS then before + [Level(price, quantity)] else before
  }

  ghost predicate Distinct(levels: seq<Level>) {
    forall i, j :: 0 <= i < j < |levels| ==> levels[i].price != levels[j].price
  }

  ghost predicate AllDifferent(xs: seq<real>) {
    forall i, j :: 0 <= i < j < |xs| ==> xs[i] != xs[j]
  }

  lemma {:induction false} DistinctPricesAreDifferent(trades: seq<Tick>)
    ensures AllDifferent(DistinctPrices(trades))
  {
    if trades != [] {
      DistinctPricesAreDifferent(trades[..|trades| - 1]);
      var ps := DistinctPrices(trades[..|trades| - 1]);
      assert forall i :: 0 <= i < |ps| ==> ps[i] in ps;
    }
  }

  ghost function PricesOf(levels: seq<Level>): seq<real> {
    seq(|levels|, i requires 0 <= i < |levels| => levels[i].price)
  }

  lemma {:induction false} SameElementsSameLength(a: seq<real>, b: seq<real>)
    requires AllDifferent(a) && AllDifferent(b)
    requires forall x :: x in a ==> x in b
    ensures |a| <= |b|
  {
    if a != [] {
      assert a[0] in a;
      var k :| 0 <= k < |b| && b[k] == a[0];
      var b' := b[..k] + b[k + 1..];
      forall x | x in a[1..] ensures x in b' {
        assert x in a && x != a[0];
        var m :| 0 <= m < |b| && b[m] == x;
        assert if m < k then b'[m] == x else b'[m - 1] == x;
      }
      SameElementsSameLength(a[1..], b');
    }
  }

  lemma {:induction false} TradedPrices(trades: seq<Tick>)
    ensures forall t :: t in trades ==> t.price in DistinctPrices(trades)
  {
    if trades != [] {
      TradedPrices(trades[..|trades| - 1]);
    }
  }

  /** A side has a level for every price it has traded at, up to a hundred of them. */
  lemma {:induction false} LevelsAreCounted(levels: seq<Level>, trades: seq<Tick>, descending: bool)
    requires IsSide(levels, trades, descending)
    ensures |levels| == if |DistinctPrices(trades)| <= 100 then |DistinctPrices(trades)| else 100
    ensures |levels| < 100 ==> forall t :: t in trades ==> exists l :: l in levels && l.price == t.price
  {
    var ps, qs := PricesOf(levels), KeptPrices(trades);
    DistinctPricesAreDifferent(trades);
    TradedPrices(trades);
    forall p | p in qs ensures p in ps && exists l :: l in levels && l.price == p {
      var l := Level(p, LastQuantity(trades, p));
      assert l in levels;
      var i :| 0 <= i < |levels| && levels[i] == l;
      assert ps[i] == p;
    }
    forall p | p in ps ensures p in qs {
      var i :| 0 <= i < |ps| && ps[i] == p;
      assert levels[i] in levels;
    }
    SameElementsSameLength(ps, qs);
    SameElementsSameLength(qs, ps);
  }

  /** A side has exactly as many levels as prices are kept. */
  lemma SideLength(levels: seq<Level>, trades: seq<Tick>, descending: bool)
    requires IsSide(levels, trades, descending)
    ensures |levels| == |KeptPrices(trades)|
  {
    var ps, qs := PricesOf(levels), KeptPrices(trades);
    DistinctPricesAreDifferent(trades);
    assert qs == DistinctPrices(trades)[..|qs|];
    assert AllDifferent(qs);
    forall x | x in ps ensures x in qs {
      var i :| 0 <= i < |levels| && ps[i] == x;
      assert levels[i] in levels;
    }
    forall x | x in qs ensures x in ps {
      var l := Level(x, LastQuantity(trades, x));
      assert l in levels;
      var i :| 0 <= i < |levels| && levels[i] == l;
      assert ps[i] == x;
    }
    SameElementsSameLength(ps, qs);
    SameElementsSameLength(qs, ps);
  }

  /** Price by price: does the trade find a level, is there room for a new one, or is it dropped? */
  lemma UpdateCases(levels: seq<Level>, trades: seq<Tick>, t: Tick, descending: bool)
    requires IsSide(levels, trades, descending)
    ensures (exists i :: 0 <= i < |levels| && levels[i].price == t.price) <==> t.price in KeptPrices(trades)
    ensures KeptPrices(trades + [t]) ==
            if t.price in KeptPrices(trades) || |levels| >= MAX_LEVELS then KeptPrices(trades)
            else KeptPrices(trades) + [t.price]
  {
    SideLength(levels, trades, descending);
    assert (trades + [t])[..|trades|] == trades;
    if t.price in KeptPrices(trades) {
      var l := Level(t.price, LastQuantity(trades, t.price));
      assert l in levels;
      var i :| 0 <= i < |levels| && levels[i] == l;
    }
    if i :| 0 <= i < |levels| && levels[i].price == t.price {
      assert levels[i] in levels;
    }
  }

  /** After find-or-append the levels are those of the extended history, up to order. */
  lemma UpdatedMembers(before: seq<Level>, after: seq<Level>, trades: seq<Tick>, t: Tick, descending: bool)
    requires IsSide(before, trades, descending)
    requires Updated(before, after, t.price, t.quantity)
    ensures Distinct(after)
    ensures forall l {:trigger l in after} ::
              l in after <==> l.price in KeptPrices(trades + [t]) && l.quantity == LastQuantity(trades + [t], l.price)
  {
    UpdateCases(before, trades, t, descending);
    assert (trades + [t])[..|trades|] == trades;
    forall l
      ensures l in after <==> l.price in KeptPrices(trades + [t]) && l.quantity == LastQuantity(trades + [t], l.price)
    {
      if t.price in KeptPrices(trades) {
        var i :| 0 <= i < |before| && before[i].price == t.price && after == before[i := Level(t.price, t.quantity)];
        UpdatedAt(before, i, Level(t.price, t.quantity), l, descending);
      }
    }
  }

  lemma UpdatedAt(before: seq<Level>, i: nat, x: Level, l: Level, descending: bool)
    requires StrictlyOrdered(before, descending) && i < |before| && before[i].price == x.price
    ensures l in before[i := x] <==> if l.price == x.price then l == x else l in before
  {
    var after := before[i := x];
    if l in after {
      var k :| 0 <= k < |after| && after[k] == l;
      if k != i {
        assert before[k] == l;
      }
    }
    if l.price == x.price {
      assert after[i] == x;
    } else if l in before {
      var k :| 0 <= k < |before| && before[k] == l;
      assert after[k] == l;
    }
  }

  // In place

  /** `std::sort` on the first `n` levels. Only its promise is used: the same levels, in order. */
  method Sort(a: array<Level>, n: nat, descending: bool)
    requires n <= a.Length && Distinct(a[..n])
    modifies a
    ensures StrictlyOrdered(a[..n], descending)
    ensures forall l :: l in a[..n] <==> l in old(a[..n])
    ensures a[n..] == old(a[n..])
  {
    var i := 0;
    while i < n
      invariant 0 <= i <= n
      invariant StrictlyOrdered(a[..i], descending)
      invariant Distinct(a[..n])
      invariant forall l :: l in a[..n] <==> l in old(a[..n])
      invariant a[n..] == old(a[n..])
    {
      var j := i;
      while j > 0 && Better(descending, a[j].price, a[j - 1].price)
        invariant 0 <= j <= i
        invariant forall p, q :: 0 <= p < q <= i && q != j ==> Better(descending, a[p].price, a[q].price)
        invariant Distinct(a[..n])
        invariant forall l :: l in a[..n] <==> l in old(a[..n])
        invariant a[n..] == old(a[n..])
      {
        SwapKeeps(a[..n], j);
        ghost var before := a[..n];
        a[j - 1], a[j] := a[j], a[j - 1];
        assert a[..n] == Swapped(before, j);
        j := j - 1;
      }
      assert j > 0 ==> a[..n][j - 1].price != a[..n][j].price;
      i := i + 1;
    }
  }

  ghost function Swapped(s: seq<Level>, j: nat): seq<Level>
    requires 0 < j < |s|
  {
    s[j - 1 := s[j]][j := s[j - 1]]
  }

  lemma SwapKeeps(s: seq<Level>, j: nat)
    requires 0 < j < |s|
    ensures Distinct(s) ==> Distinct(Swapped(s, j))
    ensures forall l :: l in s <==> l in Swapped(s, j)
  {
    var t := Swapped(s, j);
    forall l ensures l in s <==> l in t {
      if l in s {
        var k :| 0 <= k < |s| && s[k] == l;
        assert t[if k == j then j - 1 else if k == j - 1 then j else k] == l;
      }
      if l in t {
        var k :| 0 <= k < |t| && t[k] == l;
        assert s[if k == j then j - 1 else if k == j - 1 then j else k] == l;
      }
    }
  }

  /** Find or replace, append if there is room, then sort: the branch of `apply_trade` for one side. */
  method UpdateSide(levels: array<Level>, n: nat, t: Tick, descending: bool, ghost trades: seq<Tick>) returns (n': nat)
    requires levels.Length == MAX_LEVELS && n <= MAX_LEVELS
    requires IsSide(levels[..n], trades, descending)
    modifies levels
    ensures n <= n' <= MAX_LEVELS && n' > 0
    ensures IsSide(levels[..n'], trades + [t], descending)
  {
    ghost var before := levels[..n];
    var found := false;
    var i := 0;
    while i < n && !found
      invariant 0 <= i <= n
      invariant !found ==> levels[..n] == before && forall k :: 0 <= k < i ==> before[k].price != t.price
      invariant found ==>
        exists k :: 0 <= k < n && before[k].price == t.price && levels[..n] == before[k := Level(t.price, t.quantity)]
    {
      if levels[i].price == t.price {
        levels[i] := Level(levels[i].price, t.quantity);
        found := true;
        assert levels[..n] == before[i := Level(t.price, t.quantity)];
      }
      i := i + 1;
    }
    n' := n;
    if !found && n < MAX_LEVELS {
      levels[n] := Level(t.price, t.quantity);
      n' := n + 1;
      assert levels[..n'] == before + [Level(t.price, t.quantity)];
    }
    UpdatedMembers(before, levels[..n'], trades, t, descending);
    Sort(levels, n', descending);
  }

  ghost predicate AllTraded(trades: seq<Tick>) {
    forall t :: t in trades ==> t.quantity > 0.0
  }

  class OrderBook {
    const bidLevels: array<Level>
    const askLevels: array<Level>
    var numBids: nat
    var numAsks: nat
    var lastPrice: real
    var imbalance: real
    var buyVolume: real
    var sellVolume: real
    var spread: real
    ghost var trades: seq<Tick>

    /** The two sides and the volumes are those of the trade history. */
    ghost predicate BookOk()
      reads this, bidLevels, askLevels
    {
      && bidLevels != askLevels
      && bidLevels.Length == MAX_LEVELS && askLevels.Length == MAX_LEVELS
      && numBids <= MAX_LEVELS && numAsks <= MAX_LEVELS
      && IsSide(Bids(), SideTrades(trades, true), true)
      && IsSide(Asks(), SideTrades(trades, false), false)
      && sellVolume == Volume(SideTrades(trades, true))
      && buyVolume == Volume(SideTrades(trades, false))
    }

    /** The published metrics are those of the best levels. The imbalance is a ratio only if the two
        best quantities do not sum to zero, and inside (-1, 1) if all trades had a quantity. */
    ghost predicate MetricsOk()
      requires numBids <= bidLevels.Length && numAsks <= askLevels.Length
      reads this, bidLevels, askLevels
    {
      numBids > 0 && numAsks > 0 ==>
        && spread == Asks()[0].price - Bids()[0].price
        && (var b, a := Bids()[0].quantity, Asks()[0].quantity; b + a != 0.0 ==> imbalance * (b + a) == b - a)
        && (AllTraded(trades) ==> -1.0 < imbalance < 1.0)
    }

    ghost predicate Valid()
      reads this, bidLevels, askLevels
    {
      BookOk() && MetricsOk()
    }

    ghost function Bids(): seq<Level>
      requires numBids <= bidLevels.Length
      reads `numBids, bidLevels
    {
      bidLevels[..numBids]
    }

    ghost function Asks(): seq<Level>
      requires numAsks <= askLevels.Length
      reads `numAsks, askLevels
    {
      askLevels[..numAsks]
    }

    constructor ()
      ensures Valid() && trades == [] && fresh(bidLevels) && fresh(askLevels)
    {
      bidLevels := new Level[MAX_LEVELS];
      askLevels := new Level[MAX_LEVELS];
      numBids, numAsks := 0, 0;
      lastPrice, imbalance, buyVolume, sellVolume, spread := 0.0, 0.0, 0.0, 0.0, 0.0;
      trades := [];
    }

    method ApplyTrade(trade: Tick)
      requires Valid()
      modifies this, bidLevels, askLevels
      ensures Valid() && trades == old(trades) + [trade] && lastPrice == trade.price
      ensures old(numBids) > 0 ==> numBids > 0 && Bids()[0].price >= old(Bids()[0].price)
      ensures old(numAsks) > 0 ==> numAsks > 0 && Asks()[0].price <= old(Asks()[0].price)
      ensures old(numBids) > 0 && old(numAsks) > 0 ==> spread <= old(spread)
      ensures sellVolume == old(sellVolume) + if trade.buyerMaker then trade.quantity else 0.0
      ensures buyVolume == old(buyVolume) + if trade.buyerMaker then 0.0 else trade.quantity
      ensures numBids > 0 && numAsks > 0 ==>
                var bid, ask := Bids()[0], Asks()[0];
                spread == ask.price - bid.price &&
                (bid.quantity + ask.quantity != 0.0 ==>
                   imbalance * (bid.quantity + ask.quantity) == bid.quantity - ask.quantity)
    {
      hide IsSide, SideTrades, Volume;
      ghost var past, bids0, asks0 := trades, Bids(), Asks();
      lastPrice := trade.price;
      UpdateLevels(trade);
      BestImproves(bids0, Bids(), past, trade, true);
      BestImproves(asks0, Asks(), past, trade, false);
      Publish();
    }

    method UpdateLevels(trade: Tick)
      requires BookOk()
      modifies `numBids, `numAsks, `buyVolume, `sellVolume, `trades, bidLevels, askLevels
      ensures BookOk() && trades == old(trades) + [trade]
      ensures sellVolume == old(sellVolume) + if trade.buyerMaker then trade.quantity else 0.0
      ensures buyVolume == old(buyVolume) + if trade.buyerMaker then 0.0 else trade.quantity
    {
      ghost var makers, takers := SideTrades(trades, true), SideTrades(trades, false);
      SideTradesOfOneMore(trades, trade);
      hide IsSide, SideTrades, Volume;
      if trade.buyerMaker {
        sellVolume := sellVolume + trade.quantity;
        numBids := UpdateSide(bidLevels, numBids, trade, true, makers);
      } else {
        buyVolume := buyVolume + trade.quantity;
        numAsks := UpdateSide(askLevels, numAsks, trade, false, takers);
      }
      trades := trades + [trade];
    }

    /** Recalculate imbalance and spread. Where the source divides by zero the imbalance is left
        as it was. */
    method Publish()
      requires BookOk()
      modifies `imbalance, `spread
      ensures Valid()
    {
      if numBids > 0 && numAsks > 0 {
        var bidSz, askSz := bidLevels[0].quantity, askLevels[0].quantity;
        if bidSz + askSz != 0.0 {
          imbalance := (bidSz - askSz) / (bidSz + askSz);
          RatioTimesSum(bidSz, askSz);
        }
        if AllTraded(trades) {
          BestIsTraded(Bids(), trades, true);
          BestIsTraded(Asks(), trades, false);
          RatioInsideUnit(bidSz, askSz);
        }
        spread := askLevels[0].price - bidLevels[0].price;
      }
    }

    method GetTopBids(n: int) returns (r: seq<Level>)
      requires Valid()
      ensures |r| == (if n < 0 then 0 else if n <= |Bids()| then n else |Bids()|) && r == Bids()[..|r|]
    {
      r := CopyTop(bidLevels, n, numBids);
    }

    method GetTopAsks(n: int) returns (r: seq<Level>)
      requires Valid()
      ensures |r| == (if n < 0 then 0 else if n <= |Asks()| then n else |Asks()|) && r == Asks()[..|r|]
    {
      r := CopyTop(askLevels, n, numAsks);
    }
  }

  method CopyTop(levels: array<Level>, n: int, available: nat) returns (r: seq<Level>)
    requires available <= levels.Length
    ensures |r| == (if n < 0 then 0 else if n <= available then n else available) && r == levels[..|r|]
  {
    r := [];
    var i := 0;
    var count := if n < available then n else available;
    while i < count
      invariant 0 <= i && (i <= count || i == 0)
      invariant i <= available && r == levels[..i]
    {
      r := r + [levels[i]];
      i := i + 1;
    }
  }

  lemma SideTradesOfOneMore(past: seq<Tick>, t: Tick)
    ensures var side := SideTrades(past, t.buyerMaker);
            SideTrades(past + [t], t.buyerMaker) == side + [t] && Volume(side + [t]) == Volume(side) + t.quantity
    ensures SideTrades(past + [t], !t.buyerMaker) == SideTrades(past, !t.buyerMaker)
  {
    var side := SideTrades(past, t.buyerMaker);
    assert (past + [t])[..|past|] == past;
    assert (side + [t])[..|side|] == side;
  }

  lemma {:induction false} LastQuantityPositive(trades: seq<Tick>, price: real)
    requires forall t :: t in trades ==> t.quantity > 0.0
    requires price in DistinctPrices(trades)
    ensures LastQuantity(trades, price) > 0.0
  {
    var n := |trades| - 1;
    if trades[n].price != price {
      LastQuantityPositive(trades[..n], price);
    } else {
      assert trades[n] in trades;
    }
  }

  lemma {:induction false} SideTradesMembers(trades: seq<Tick>, maker: bool, t: Tick)
    requires t in SideTrades(trades, maker)
    ensures t in trades
  {
    if trades != [] && t in SideTrades(trades[..|trades| - 1], maker) {
      SideTradesMembers(trades[..|trades| - 1], maker, t);
    }
  }

  lemma BestIsTraded(levels: seq<Level>, trades: seq<Tick>, maker: bool)
    requires levels != [] && IsSide(levels, SideTrades(trades, maker), maker)
    requires forall t :: t in trades ==> t.quantity > 0.0
    ensures levels[0].quantity > 0.0
  {
    assert levels[0] in levels;
    forall t | t in SideTrades(trades, maker) ensures t.quantity > 0.0 {
      SideTradesMembers(trades, maker, t);
    }
    LastQuantityPositive(SideTrades(trades, maker), levels[0].price);
  }

  lemma RatioTimesSum(x: real, y: real)
    requires x + y != 0.0
    ensures (x - y) / (x + y) * (x + y) == x - y
  {
  }

  lemma RatioInsideUnit(x: real, y: real)
    requires x > 0.0 && y > 0.0
    ensures -1.0 < (x - y) / (x + y) < 1.0
  {
    var r, d := (x - y) / (x + y), x + y;
    assert r * d == x - y;
    assert (r - 1.0) * d == -2.0 * y;
    assert (-1.0 - r) * d == -2.0 * x;
    NegativeFactor(r - 1.0, d);
    NegativeFactor(-1.0 - r, d);
  }

  lemma NegativeFactor(a: real, d: real)
    requires d > 0.0 && a * d < 0.0
    ensures a < 0.0
  {
  }

  lemma BestImproves(before: seq<Level>, after: seq<Level>, past: seq<Tick>, t: Tick, maker: bool)
    requires IsSide(before, SideTrades(past, maker), maker)
    requires IsSide(after, SideTrades(past + [t], maker), maker)
    ensures before != [] ==> after != [] && !Better(maker, before[0].price, after[0].price)
  {
    var trades := past + [t];
    assert trades[..|past|] == past;
    SideTradesPrefix(trades, |past|, maker);
    if before != [] {
      BestOnlyImproves(before, after, SideTrades(trades, maker), |SideTrades(past, maker)|, maker);
    }
  }
}
