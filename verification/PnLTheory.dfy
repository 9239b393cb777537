/**
 What the bookkeeping of PnLEngines amounts to over whole histories of fills and marks.
 The identities hold as long as no fill reverses dust, a position so close to zero that the engine
 takes it for zero although it is not; with positive prices they hold exactly that long. Histories
 whose quantities are whole numbers of a lot above the 1e-9 threshold never get there.
 */
module PnLTheory {
  import opened Events
  import opened MapSums
  import opened PnLEngines

  datatype Trade = Trade(strategy: nat, side: Side, price: real, qty: real)

  datatype Op = Deal(trade: Trade) | MarkAt(price: real)

  ghost function Step(p: PnL, op: Op): PnL {
    match op
    case Deal(t) => OnFill(p, t.strategy, t.side, t.price, t.qty)
    case MarkAt(m) => Mark(p, m)
  }

  ghost function Run(ops: seq<Op>): PnL {
    if ops == [] then NEW_PNL else Step(Run(ops[..|ops| - 1]), ops[|ops| - 1])
  }

  function Trades(ops: seq<Op>): seq<Trade> {
    if ops == [] then []
    else Trades(ops[..|ops| - 1]) + if ops[|ops| - 1].Deal? then [ops[|ops| - 1].trade] else []
  }

  function TradesOf(ts: seq<Trade>, strategy: nat): seq<Trade> {
    if ts == [] then []
    else TradesOf(ts[..|ts| - 1], strategy) + if ts[|ts| - 1].strategy == strategy then [ts[|ts| - 1]] else []
  }

  function Signed(t: Trade): real {
    SignedQty(t.side, t.qty)
  }

  /** Signed sum of the quantities. */
  function Net(ts: seq<Trade>): real {
    if ts == [] then 0.0 else Net(ts[..|ts| - 1]) + Signed(ts[|ts| - 1])
  }

  /** Money received minus money paid. */
  function Cash(ts: seq<Trade>): real {
    if ts == [] then 0.0 else Cash(ts[..|ts| - 1]) - Times(Signed(ts[|ts| - 1]), ts[|ts| - 1].price)
  }

  /** One strategy's statistics after its trades. */
  function FillAll(ts: seq<Trade>): Stats {
    if ts == [] then NO_STATS
    else
      var t := ts[|ts| - 1];
      AfterFill(FillAll(ts[..|ts| - 1]), t.side, t.price, t.qty)
  }

  /** Realized profit minus the cost of the open position. */
  function Ledger(s: Stats): real {
    s.realized - Times(s.position, s.avgPrice)
  }

  // One fill

  /** A fill against a position that is not zero but taken for zero. */
  predicate DustReversal(s: Stats, side: Side) {
    s.position != 0.0 && Abs(s.position) < DUST && (s.position > 0.0) != side.Buy?
  }

  lemma AverageTimesTotal(avg: real, held: real, price: real, qty: real, total: real)
    requires total != 0.0
    ensures Times(total, WeightedAverage(avg, held, price, qty, total)) == Times(avg, held) + Times(price, qty)
  {
    var n := (avg * held) + (price * qty);
    assert n / total * total == n;
  }

  lemma IncreaseKeepsLedger(s: Stats, side: Side, price: real, qty: real)
    requires qty > 0.0 && Increases(s, side, qty) && !DustReversal(s, side)
    ensures Ledger(AfterFill(s, side, price, qty)) == Ledger(s) - Times(SignedQty(side, qty), price)
  {
    var newPos := s.position + SignedQty(side, qty);
    var held, total := Abs(s.position), Abs(newPos);
    AverageTimesTotal(s.avgPrice, held, price, qty, total);
    var avg := WeightedAverage(s.avgPrice, held, price, qty, total);
    if side.Buy? {
      assert total == newPos && held == s.position;
    } else {
      assert total == -newPos && held == -s.position;
      assert Times(newPos, avg) == -Times(total, avg);
      assert Times(s.avgPrice, held) == -Times(s.avgPrice, s.position);
      assert Times(SignedQty(side, qty), price) == -Times(qty, price);
    }
  }

  lemma GainParts(closing: real, price: real, avg: real, mult: real)
    requires mult == 1.0 || mult == -1.0
    ensures Gain(closing, price, avg, mult) == (Times(closing, price) - Times(closing, avg)) * mult
  {
  }

  lemma DecreaseKeepsLedger(s: Stats, side: Side, price: real, qty: real)
    requires qty > 0.0 && !Increases(s, side, qty)
    ensures Ledger(AfterFill(s, side, price, qty)) == Ledger(s) - Times(SignedQty(side, qty), price)
  {
    var fill := SignedQty(side, qty);
    var p := s.position;
    var closing := Min(Abs(p), qty);
    GainParts(closing, price, s.avgPrice, if p > 0.0 then 1.0 else -1.0);
    if qty > Abs(p) {
      assert Times(p + fill, price) == Times(p, price) + Times(fill, price);
      assert p > 0.0 ==> closing == p;
      assert p < 0.0 ==>
        (closing == -p && Times(closing, price) == -Times(p, price) &&
         Times(closing, s.avgPrice) == -Times(p, s.avgPrice));
    } else {
      assert Times(p + fill, s.avgPrice) == Times(p, s.avgPrice) + Times(fill, s.avgPrice);
      assert closing == qty;
      assert side.Sell? ==>
        Times(fill, price) == -Times(qty, price) && Times(fill, s.avgPrice) == -Times(qty, s.avgPrice);
    }
  }

  /** A fill changes the ledger by its cash, unless it reverses dust. */
  lemma LedgerStep(s: Stats, side: Side, price: real, qty: real)
    requires qty > 0.0 && !DustReversal(s, side)
    ensures Ledger(AfterFill(s, side, price, qty)) == Ledger(s) - Times(SignedQty(side, qty), price)
  {
    if Increases(s, side, qty) {
      IncreaseKeepsLedger(s, side, price, qty);
    } else {
      DecreaseKeepsLedger(s, side, price, qty);
    }
  }

  lemma PositiveTimes(x: real, y: real)
    requires x > 0.0 && y > 0.0
    ensures Times(x, y) > 0.0
  {
  }

  /** With positive prices the condition is exact: reversing dust always breaks the books. */
  lemma LedgerExact(s: Stats, side: Side, price: real, qty: real)
    requires qty > 0.0 && price > 0.0 && s.avgPrice > 0.0 && s.position + SignedQty(side, qty) != 0.0
    ensures Ledger(AfterFill(s, side, price, qty)) == Ledger(s) - Times(SignedQty(side, qty), price) <==>
            !DustReversal(s, side)
  {
    if !DustReversal(s, side) {
      LedgerStep(s, side, price, qty);
    } else {
      var newPos := s.position + SignedQty(side, qty);
      var held, total := Abs(s.position), Abs(newPos);
      var avg := WeightedAverage(s.avgPrice, held, price, qty, total);
      AverageTimesTotal(s.avgPrice, held, price, qty, total);
      PositiveTimes(s.avgPrice, held);
      PositiveTimes(price, qty);
      assert Times(newPos, avg) == if newPos > 0.0 then Times(total, avg) else -Times(total, avg);
      assert Times(s.position, s.avgPrice) ==
        if s.position > 0.0 then Times(s.avgPrice, held) else -Times(s.avgPrice, held);
      assert Times(SignedQty(side, qty), price) == if side.Buy? then Times(price, qty) else -Times(price, qty);
    }
  }

  // The lot grid

  ghost predicate OnGrid(x: real, lot: real) {
    exists n: int :: x == Lots(n, lot)
  }

  function Lots(n: int, lot: real): real {
    n as real * lot
  }

  lemma ZeroOnGrid(lot: real)
    ensures OnGrid(0.0, lot)
  {
    assert 0.0 == Lots(0, lot);
  }

  lemma GridMove(x: real, qty: real, side: Side, lot: real)
    requires OnGrid(x, lot) && OnGrid(qty, lot)
    ensures OnGrid(x + SignedQty(side, qty), lot)
  {
    var n: int, k: int :| x == Lots(n, lot) && qty == Lots(k, lot);
    var m := if side.Buy? then n + k else n - k;
    assert side.Sell? ==> Lots(m, lot) == Lots(n, lot) - Lots(k, lot);
    assert x + SignedQty(side, qty) == Lots(m, lot);
  }

  lemma LotsAreFarApart(n: int, lot: real)
    requires lot > 0.0
    ensures n == 0 || Lots(n, lot) >= lot || Lots(n, lot) <= -lot
  {
    if n >= 1 {
      assert Lots(n, lot) == lot + Lots(n - 1, lot) && Lots(n - 1, lot) >= 0.0;
    } else if n <= -1 {
      assert Lots(n, lot) == -lot + Lots(n + 1, lot) && Lots(n + 1, lot) <= 0.0;
    }
  }

  /** On the grid only zero is below the threshold. */
  lemma GridHasNoDust(x: real, lot: real)
    requires OnGrid(x, lot) && lot > DUST && Abs(x) <= DUST
    ensures x == 0.0
  {
    var n: int :| x == Lots(n, lot);
    LotsAreFarApart(n, lot);
  }

  lemma GridHasNoDustReversal(s: Stats, side: Side, lot: real)
    requires OnGrid(s.position, lot) && lot > DUST
    ensures !DustReversal(s, side)
  {
    if Abs(s.position) <= DUST {
      GridHasNoDust(s.position, lot);
    }
  }

  ghost predicate InLots(ts: seq<Trade>, lot: real) {
    lot > DUST && forall t :: t in ts ==> t.qty > 0.0 && OnGrid(t.qty, lot)
  }

  // Histories of one strategy

  /** No fill of this history reverses dust. */
  predicate Clean(ts: seq<Trade>) {
    ts == [] ||
    var before, t := ts[..|ts| - 1], ts[|ts| - 1];
    Clean(before) && t.qty > 0.0 && !DustReversal(FillAll(before), t.side)
  }

  lemma LedgerOfNothing()
    ensures Ledger(NO_STATS) == 0.0
  {
  }

  /** What a fill does besides realizing profit: it moves the position, and neither reads nor
      writes the unrealized profit. */
  lemma FillMovesPosition(s: Stats, side: Side, price: real, qty: real)
    ensures AfterFill(s, side, price, qty).position == s.position + SignedQty(side, qty)
    ensures AfterFill(s, side, price, qty).(unrealized := 0.0) == AfterFill(s.(unrealized := 0.0), side, price, qty)
  {
  }

  /** Over every history, dust or not, the position is the signed sum of the fills. */
  lemma {:induction false} PositionIsNet(ts: seq<Trade>)
    ensures FillAll(ts).position == Net(ts)
  {
    if ts != [] {
      var before, t := ts[..|ts| - 1], ts[|ts| - 1];
      PositionIsNet(before);
      FillMovesPosition(FillAll(before), t.side, t.price, t.qty);
      hide AfterFill;
    }
  }

  /** The accounting identity: realized profit minus open cost is the cash that changed hands. */
  lemma {:induction false} Accounting(ts: seq<Trade>)
    requires Clean(ts)
    ensures FillAll(ts).position == Net(ts)
    ensures Ledger(FillAll(ts)) == Cash(ts)
  {
    PositionIsNet(ts);
    hide AfterFill, Times, Ledger;
    if ts == [] {
      LedgerOfNothing();
    } else {
      var before, t := ts[..|ts| - 1], ts[|ts| - 1];
      Accounting(before);
      LedgerStep(FillAll(before), t.side, t.price, t.qty);
    }
  }

  /** Positive prices and quantities, and no fill that undoes dust exactly, where the source would
      divide by zero. */
  predicate Plain(ts: seq<Trade>) {
    ts == [] ||
    var before, t := ts[..|ts| - 1], ts[|ts| - 1];
    Plain(before) && t.qty > 0.0 && t.price > 0.0 &&
    !(DustReversal(FillAll(before), t.side) && FillAll(before).position + Signed(t) == 0.0)
  }

  lemma AveragePositive(s: Stats, t: Trade)
    requires t.qty > 0.0 && t.price > 0.0 && s.avgPrice >= 0.0 && (s.position != 0.0 ==> s.avgPrice > 0.0)
    ensures var s' := AfterFill(s, t.side, t.price, t.qty);
            s'.avgPrice >= 0.0 && (s'.position != 0.0 ==> s'.avgPrice > 0.0)
  {
    var held, total := Abs(s.position), Abs(s.position + Signed(t));
    if Increases(s, t.side, t.qty) && total != 0.0 {
      AverageTimesTotal(s.avgPrice, held, t.price, t.qty, total);
      PositiveTimes(t.price, t.qty);
      SignOfTimes(held, s.avgPrice);
      assert Times(s.avgPrice, held) == Times(held, s.avgPrice);
      SignOfTimes(total, WeightedAverage(s.avgPrice, held, t.price, t.qty, total));
    }
    hide Times, WeightedAverage;
  }

  lemma {:induction false} PlainAveragePositive(ts: seq<Trade>)
    requires Plain(ts)
    ensures var s := FillAll(ts); s.avgPrice >= 0.0 && (s.position != 0.0 ==> s.avgPrice > 0.0)
  {
    if ts != [] {
      var before, t := ts[..|ts| - 1], ts[|ts| - 1];
      PlainAveragePositive(before);
      AveragePositive(FillAll(before), t);
      hide AfterFill;
    }
  }

  /** The books have balanced after each fill. */
  ghost predicate AlwaysBalanced(ts: seq<Trade>) {
    Ledger(FillAll(ts)) == Cash(ts) && (ts != [] ==> AlwaysBalanced(ts[..|ts| - 1]))
  }

  /** Exactly when: as long as no fill has reversed dust. */
  lemma {:induction false} AccountingExact(ts: seq<Trade>)
    requires Plain(ts)
    ensures AlwaysBalanced(ts) <==> Clean(ts)
  {
    if ts == [] {
      LedgerOfNothing();
    } else {
      hide AfterFill, Times, Ledger, DustReversal;
      var before, t := ts[..|ts| - 1], ts[|ts| - 1];
      var s := FillAll(before);
      AccountingExact(before);
      PlainAveragePositive(before);
      assert Clean(ts) <==> Clean(before) && !DustReversal(s, t.side);
      assert AlwaysBalanced(ts) <==> AlwaysBalanced(before) && Ledger(FillAll(ts)) == Cash(ts);
      assert FillAll(ts) == AfterFill(s, t.side, t.price, t.qty);
      assert Cash(ts) == Cash(before) - Times(Signed(t), t.price);
      assert t.qty > 0.0 && t.price > 0.0 && !(DustReversal(s, t.side) && s.position + Signed(t) == 0.0);
      if Clean(before) {
        Accounting(before);
        hide Clean, AlwaysBalanced, Plain, FillAll, Cash;
        BalancesUnlessDust(s, t);
      }
    }
  }

  lemma BalancesUnlessDust(s: Stats, t: Trade)
    requires t.qty > 0.0 && t.price > 0.0 && (s.position != 0.0 ==> s.avgPrice > 0.0)
    requires !(DustReversal(s, t.side) && s.position + Signed(t) == 0.0)
    ensures Ledger(AfterFill(s, t.side, t.price, t.qty)) == Ledger(s) - Times(Signed(t), t.price) <==>
            !DustReversal(s, t.side)
  {
    if DustReversal(s, t.side) {
      LedgerExact(s, t.side, t.price, t.qty);
    } else {
      LedgerStep(s, t.side, t.price, t.qty);
    }
  }

  /** A history that gets there: half the threshold bought, then one sold, both at the same price.
      The books then show a profit out of nothing, the price of what was bought. */
  lemma DustBreaksTheBooks(strategy: nat, price: real)
    requires price > 0.0
    ensures var ts := [Trade(strategy, Buy, price, DUST / 2.0), Trade(strategy, Sell, price, 1.0)];
            Plain(ts) && !Clean(ts) && Ledger(FillAll(ts)) == Cash(ts) + DUST * price
  {
    var t1, t2 := Trade(strategy, Buy, price, DUST / 2.0), Trade(strategy, Sell, price, 1.0);
    FillTwo(t1, t2);
    assert [t1, t2][..1] == [t1] && [t1][..0] == [];
    var s, s' := FillAll([t1]), FillAll([t1, t2]);
    FirstFill(price, DUST / 2.0);
    var total := 1.0 - DUST / 2.0;
    AverageTimesTotal(price, DUST / 2.0, price, 1.0, total);
    assert s'.avgPrice == WeightedAverage(price, DUST / 2.0, price, 1.0, total);
    assert s'.position == -total && s'.realized == 0.0;
    assert Ledger(s') == Times(total, s'.avgPrice) == price * (DUST / 2.0) + price;
    assert Cash([t1, t2]) == price - price * (DUST / 2.0);
  }

  lemma FillTwo(a: Trade, b: Trade)
    ensures FillAll([a]) == AfterFill(NO_STATS, a.side, a.price, a.qty)
    ensures FillAll([a, b]) == AfterFill(FillAll([a]), b.side, b.price, b.qty)
    ensures Cash([a, b]) == 0.0 - Times(Signed(a), a.price) - Times(Signed(b), b.price)
  {
    hide AfterFill, Times;
    assert [a][..0] == [] && [a, b][..1] == [a];
    assert FillAll([]) == NO_STATS && Cash([]) == 0.0;
    assert Cash([a]) == Cash([]) - Times(Signed(a), a.price);
  }

  lemma FirstFill(price: real, qty: real)
    requires qty > 0.0
    ensures var s := AfterFill(NO_STATS, Buy, price, qty); s.position == qty && s.avgPrice == price && s.realized == 0.0
  {
    AverageTimesTotal(0.0, 0.0, price, qty, qty);
    assert Times(qty, WeightedAverage(0.0, 0.0, price, qty, qty)) == Times(price, qty);
    SameFactor(qty, WeightedAverage(0.0, 0.0, price, qty, qty), price);
  }

  lemma SameFactor(x: real, y: real, z: real)
    requires x > 0.0 && Times(x, y) == Times(z, x)
    ensures y == z
  {
    assert x * (y - z) == 0.0;
  }

  /** On a lot grid no fill ever reverses dust, and what is left is zero or above the threshold. */
  lemma {:induction false} GridIsClean(ts: seq<Trade>, lot: real)
    requires InLots(ts, lot)
    ensures Clean(ts) && OnGrid(FillAll(ts).position, lot)
    ensures Settled(FillAll(ts))
  {
    hide AfterFill, OnGrid, DustReversal;
    if ts == [] {
      ZeroOnGrid(lot);
    } else {
      var before, t := ts[..|ts| - 1], ts[|ts| - 1];
      assert t in ts;
      GridIsClean(before, lot);
      GridHasNoDustReversal(FillAll(before), t.side, lot);
      FillMovesPosition(FillAll(before), t.side, t.price, t.qty);
      GridMove(FillAll(before).position, t.qty, t.side, lot);
      if !Settled(FillAll(ts)) {
        GridHasNoDust(FillAll(ts).position, lot);
      }
    }
  }

  /** The position is zero or large enough to be marked. */
  predicate Settled(s: Stats) {
    s.position == 0.0 || Abs(s.position) > DUST
  }

  /** Prices of the fills that opened or increased the position since it was last flat or
      changed sign, told from the quantities alone. */
  function OpeningPrices(ts: seq<Trade>): seq<real> {
    if ts == [] then []
    else
      var before, t := ts[..|ts| - 1], ts[|ts| - 1];
      var p := Net(before);
      if p == 0.0 || (p > 0.0) == t.side.Buy? then (if p == 0.0 then [] else OpeningPrices(before)) + [t.price]
      else if t.qty > Abs(p) then [t.price]
      else if t.qty == Abs(p) then []
      else OpeningPrices(before)
  }

  ghost predicate Within(ps: seq<real>, x: real) {
    (exists i :: 0 <= i < |ps| && ps[i] <= x) && (exists i :: 0 <= i < |ps| && x <= ps[i])
  }

  lemma SignOfTimes(x: real, y: real)
    requires x >= 0.0
    ensures y >= 0.0 ==> Times(x, y) >= 0.0
    ensures y <= 0.0 ==> Times(x, y) <= 0.0
    ensures x > 0.0 && y > 0.0 ==> Times(x, y) > 0.0
    ensures x > 0.0 && y < 0.0 ==> Times(x, y) < 0.0
    ensures x == 0.0 ==> Times(x, y) == 0.0
  {
  }

  lemma AverageIsBetween(avg: real, held: real, price: real, qty: real)
    requires held >= 0.0 && qty > 0.0
    ensures var a := WeightedAverage(avg, held, price, qty, held + qty);
            Min(avg, price) <= a <= Max(avg, price) && (held == 0.0 ==> a == price)
  {
    var a := WeightedAverage(avg, held, price, qty, held + qty);
    AverageTimesTotal(avg, held, price, qty, held + qty);
    assert Times(held + qty, a) == Times(held, a) + Times(qty, a);
    assert Times(held, a - avg) + Times(qty, a - price) == 0.0;
    SignOfTimes(held, a - avg);
    SignOfTimes(qty, a - price);
  }

  lemma WithinGrows(ps: seq<real>, avg: real, price: real, a: real)
    requires Within(ps, avg) && Min(avg, price) <= a <= Max(avg, price)
    ensures Within(ps + [price], a)
  {
    var qs := ps + [price];
    var i, j :| 0 <= i < |ps| && ps[i] <= avg && 0 <= j < |ps| && avg <= ps[j];
    assert qs[i] == ps[i] && qs[j] == ps[j] && qs[|ps|] == price;
  }

  /** While a position is open its average price lies between the lowest and the highest price
      of the fills that built it. */
  lemma {:induction false} AverageEnvelope(ts: seq<Trade>)
    requires Clean(ts)
    ensures FillAll(ts).position != 0.0 ==> Within(OpeningPrices(ts), FillAll(ts).avgPrice)
  {
    if ts != [] {
      var before, t := ts[..|ts| - 1], ts[|ts| - 1];
      AverageEnvelope(before);
      PositionIsNet(before);
      PositionIsNet(ts);
      EnvelopeStep(FillAll(before), t, OpeningPrices(before));
      hide AfterFill, DustReversal;
    }
  }

  lemma EnvelopeStep(s: Stats, t: Trade, ps: seq<real>)
    requires t.qty > 0.0 && !DustReversal(s, t.side)
    requires s.position != 0.0 ==> Within(ps, s.avgPrice)
    ensures var s' := AfterFill(s, t.side, t.price, t.qty);
            var p := s.position;
            s'.position != 0.0 ==>
              Within(if p == 0.0 || (p > 0.0) == t.side.Buy? then (if p == 0.0 then [] else ps) + [t.price]
                     else if t.qty > Abs(p) then [t.price] else ps, s'.avgPrice)
  {
    var p := s.position;
    var s' := AfterFill(s, t.side, t.price, t.qty);
    assert Within([t.price], t.price) by {
      assert [t.price][0] == t.price;
    }
    if Increases(s, t.side, t.qty) {
      AverageIsBetween(s.avgPrice, Abs(p), t.price, t.qty);
      assert Abs(p + SignedQty(t.side, t.qty)) == Abs(p) + t.qty;
      if p == 0.0 {
        assert [] + [t.price] == [t.price];
      } else {
        WithinGrows(ps, s.avgPrice, t.price, s'.avgPrice);
      }
    }
  }

  /** A fill that turns dust round moves the average above the only price the new position was opened at. */
  lemma DustFlipLeavesEnvelope(s: Stats, t: Trade)
    requires DustReversal(s, t.side) && t.qty > Abs(s.position) && t.price > 0.0 && s.avgPrice > 0.0
    ensures AfterFill(s, t.side, t.price, t.qty).avgPrice > t.price
  {
    var held, total := Abs(s.position), Abs(s.position + Signed(t));
    assert total == t.qty - held;
    var avg := WeightedAverage(s.avgPrice, held, t.price, t.qty, total);
    AverageTimesTotal(s.avgPrice, held, t.price, t.qty, total);
    PositiveTimes(s.avgPrice, held);
    PositiveTimes(t.price, held);
    assert Times(total, avg - t.price) == Times(s.avgPrice, held) + Times(t.price, held);
    SignOfTimes(total, avg - t.price);
  }

  /** No fill undoes only a part of dust: what reverses dust turns the position round. */
  predicate DustTurnsRound(ts: seq<Trade>) {
    ts == [] ||
    var before, t := ts[..|ts| - 1], ts[|ts| - 1];
    DustTurnsRound(before) &&
    (DustReversal(FillAll(before), t.side) ==> t.qty > Abs(FillAll(before).position))
  }

  /** The average has been inside its envelope after each fill. */
  ghost predicate AlwaysWithin(ts: seq<Trade>) {
    (FillAll(ts).position != 0.0 ==> Within(OpeningPrices(ts), FillAll(ts).avgPrice)) &&
    (ts != [] ==> AlwaysWithin(ts[..|ts| - 1]))
  }

  /** Exactly when: as long as no fill has reversed dust. */
  lemma {:induction false} AverageEnvelopeExact(ts: seq<Trade>)
    requires Plain(ts) && DustTurnsRound(ts)
    ensures AlwaysWithin(ts) <==> Clean(ts)
  {
    if ts != [] {
      hide AfterFill, DustReversal, Within;
      var before, t := ts[..|ts| - 1], ts[|ts| - 1];
      AverageEnvelopeExact(before);
      if Clean(ts) {
        AverageEnvelope(ts);
      } else if Clean(before) {
        var s := FillAll(before);
        PlainAveragePositive(before);
        PositionIsNet(before);
        PositionIsNet(ts);
        ReversesDust(s, t.side);
        DustFlipLeavesEnvelope(s, t);
        OutsideOnePrice(t.price, FillAll(ts).avgPrice);
        assert OpeningPrices(ts) == [t.price];
      }
    }
  }

  lemma ReversesDust(s: Stats, side: Side)
    requires DustReversal(s, side)
    ensures s.position != 0.0 && (s.position > 0.0) != side.Buy?
  {
  }

  lemma OutsideOnePrice(price: real, x: real)
    requires x > price
    ensures !Within([price], x)
  {
  }

  // What is realized, and when

  /** One fill, in the three cases: opening or adding to a position realizes nothing and spreads the
      cost; reducing it realizes the part closed and keeps the average; turning it round closes all of
      it and starts again at the price. */
  lemma FillRules(s: Stats, side: Side, price: real, qty: real)
    requires qty > 0.0 && (s.position == 0.0 || Abs(s.position) >= 0.000000001)
    ensures var s' := AfterFill(s, side, price, qty);
            var held, open := Abs(s.position), Abs(s'.position);
            var opposite := (s.position > 0.0 && side.Sell?) || (s.position < 0.0 && side.Buy?);
            s'.unrealized == s.unrealized &&
            s'.position == s.position + (if side.Buy? then qty else -qty) &&
            if !opposite then
              s'.realized == s.realized && s'.trades == s.trades &&
              Times(open, s'.avgPrice) == Times(s.avgPrice, held) + Times(price, qty)
            else
              var gain := if s.position > 0.0 then price - s.avgPrice else s.avgPrice - price;
              s'.realized == s.realized + Times(if qty <= held then qty else held, gain) &&
              s'.trades == s.trades + 1 && s'.avgPrice == if qty <= held then s.avgPrice else price
  {
    if Increases(s, side, qty) {
      AverageTimesTotal(s.avgPrice, Abs(s.position), price, qty, Abs(s.position + SignedQty(side, qty)));
    } else {
      var closing := Min(Abs(s.position), qty);
      assert Gain(closing, price, s.avgPrice, 1.0) == Times(closing, price - s.avgPrice);
      assert Gain(closing, price, s.avgPrice, -1.0) == Times(closing, s.avgPrice - price);
    }
    hide Times, Gain, WeightedAverage;
  }

  /** How many of the fills were against an open position, told from the quantities alone. */
  function Closings(ts: seq<Trade>): nat {
    if ts == [] then 0
    else
      var before, t := ts[..|ts| - 1], ts[|ts| - 1];
      var p := Net(before);
      Closings(before) + if (p > 0.0 && t.side.Sell?) || (p < 0.0 && t.side.Buy?) then 1 else 0
  }

  /** `trades` counts them. */
  lemma {:induction false} TradesAreClosings(ts: seq<Trade>)
    requires Clean(ts)
    ensures FillAll(ts).trades == Closings(ts)
  {
    if ts != [] {
      var before, t := ts[..|ts| - 1], ts[|ts| - 1];
      TradesAreClosings(before);
      PositionIsNet(before);
      CountsClosing(FillAll(before), t);
      hide AfterFill;
    }
  }

  lemma CountsClosing(s: Stats, t: Trade)
    requires t.qty > 0.0 && !DustReversal(s, t.side)
    ensures AfterFill(s, t.side, t.price, t.qty).trades ==
            s.trades + if (s.position > 0.0 && t.side.Sell?) || (s.position < 0.0 && t.side.Buy?) then 1 else 0
  {
  }

  // Histories of the engine

  /** A strategy's statistics depend on its own trades only, not on marks or on other strategies. */
  lemma {:induction false} StatsAreOwnTrades(ops: seq<Op>, k: nat)
    ensures k in Run(ops).stats <==> TradesOf(Trades(ops), k) != []
    ensures k in Run(ops).stats ==> Run(ops).stats[k].(unrealized := 0.0) == FillAll(TradesOf(Trades(ops), k))
  {
    if ops != [] {
      hide AfterFill;
      var before, op := ops[..|ops| - 1], ops[|ops| - 1];
      StatsAreOwnTrades(before, k);
      if op.Deal? {
        var ts, t := Trades(before), op.trade;
        var p := Run(before);
        FillMovesPosition(if t.strategy in p.stats then p.stats[t.strategy] else NO_STATS, t.side, t.price, t.qty);
        assert (ts + [op.trade])[..|ts|] == ts;
        if op.trade.strategy == k {
          var mine := TradesOf(ts, k);
          assert (mine + [op.trade])[..|mine|] == mine;
        } else {
          assert TradesOf(ts + [op.trade], k) == TradesOf(ts, k);
        }
      } else {
        assert Trades(ops) == Trades(before);
      }
    }
  }

  lemma {:induction false} TradesOfInLots(ts: seq<Trade>, k: nat, lot: real)
    requires InLots(ts, lot)
    ensures InLots(TradesOf(ts, k), lot)
  {
    if ts != [] {
      var before := ts[..|ts| - 1];
      assert forall t :: t in before ==> t in ts;
      assert ts[|ts| - 1] in ts;
      TradesOfInLots(before, k, lot);
    }
  }

  /** No strategy's fills reverse dust. */
  ghost predicate AllClean(ts: seq<Trade>) {
    forall k :: Clean(TradesOf(ts, k))
  }

  lemma GridIsAllClean(ts: seq<Trade>, lot: real)
    requires InLots(ts, lot)
    ensures AllClean(ts) && forall k :: Settled(FillAll(TradesOf(ts, k)))
  {
    forall k ensures Clean(TradesOf(ts, k)) && Settled(FillAll(TradesOf(ts, k))) {
      TradesOfInLots(ts, k, lot);
      GridIsClean(TradesOf(ts, k), lot);
    }
  }

  /** Each strategy's books balance. */
  lemma PerStrategy(ops: seq<Op>, k: nat)
    requires k in Run(ops).stats
    ensures Run(ops).stats[k].position == Net(TradesOf(Trades(ops), k))
    ensures Clean(TradesOf(Trades(ops), k)) ==> Ledger(Run(ops).stats[k]) == Cash(TradesOf(Trades(ops), k))
  {
    var mine := TradesOf(Trades(ops), k);
    StatsAreOwnTrades(ops, k);
    PositionIsNet(mine);
    if Clean(mine) {
      Accounting(mine);
    }
    hide Times;
  }

  function Ledgers(stats: map<nat, Stats>): map<nat, real> {
    map k | k in stats :: Ledger(stats[k])
  }

  lemma ProjectionsOfSet(stats: map<nat, Stats>, k: nat, s: Stats)
    ensures Positions(stats[k := s]) == Positions(stats)[k := s.position]
    ensures Ledgers(stats[k := s]) == Ledgers(stats)[k := Ledger(s)]
  {
    hide Ledger;
  }

  lemma ProjectionsOfMark(stats: map<nat, Stats>, price: real)
    ensures Positions(MarkSome(stats, stats.Keys, price)) == Positions(stats)
    ensures Ledgers(MarkSome(stats, stats.Keys, price)) == Ledgers(stats)
  {
    hide OpenGain, Times;
  }

  lemma {:induction false} TotalsOfSet(stats: map<nat, Stats>, k: nat, s: Stats, s': Stats)
    requires s == if k in stats then stats[k] else NO_STATS
    ensures MapSum(Positions(stats[k := s'])) == MapSum(Positions(stats)) + (s'.position - s.position)
    ensures MapSum(Ledgers(stats[k := s'])) == MapSum(Ledgers(stats)) + (Ledger(s') - Ledger(s))
  {
    ProjectionsOfSet(stats, k, s');
    LedgerOfNothing();
    hide Ledger, MapSum;
    MapSumSet(Positions(stats), k, s'.position);
    MapSumSet(Ledgers(stats), k, Ledger(s'));
  }

  lemma {:induction false} StepTotals(p: PnL, t: Trade)
    ensures var p' := OnFill(p, t.strategy, t.side, t.price, t.qty);
            MapSum(Positions(p'.stats)) == MapSum(Positions(p.stats)) + Signed(t) &&
            (t.qty > 0.0 && (t.strategy in p.stats ==> !DustReversal(p.stats[t.strategy], t.side)) ==>
               MapSum(Ledgers(p'.stats)) == MapSum(Ledgers(p.stats)) - Times(Signed(t), t.price))
  {
    hide AfterFill, Times, Positions, Ledgers, Ledger, MapSum;
    var s := if t.strategy in p.stats then p.stats[t.strategy] else NO_STATS;
    var s' := AfterFill(s, t.side, t.price, t.qty);
    if t.qty > 0.0 && !DustReversal(s, t.side) {
      LedgerStep(s, t.side, t.price, t.qty);
    }
    FillMovesPosition(s, t.side, t.price, t.qty);
    TotalsOfSet(p.stats, t.strategy, s, s');
  }

  /** A deal on a clean history is clean for the strategy's statistics as they stand. */
  lemma CleanDeal(ops: seq<Op>, t: Trade)
    requires AllClean(Trades(ops) + [t])
    ensures AllClean(Trades(ops)) && t.qty > 0.0
    ensures t.strategy in Run(ops).stats ==> !DustReversal(Run(ops).stats[t.strategy], t.side)
  {
    hide AfterFill;
    var ts := Trades(ops);
    assert (ts + [t])[..|ts|] == ts;
    forall k ensures Clean(TradesOf(ts, k)) {
      var mine, more := TradesOf(ts, k), TradesOf(ts + [t], k);
      assert Clean(more);
      if t.strategy == k {
        assert more[..|mine|] == mine;
      } else {
        assert more == mine;
      }
    }
    var mine := TradesOf(ts, t.strategy);
    assert Clean(TradesOf(ts + [t], t.strategy));
    assert (mine + [t])[..|mine|] == mine;
    StatsAreOwnTrades(ops, t.strategy);
  }

  /** Total position is the net of all fills; total ledger is their cash if none reverses dust. */
  lemma {:induction false} Totals(ops: seq<Op>)
    ensures TotalPosition(Run(ops).stats) == Net(Trades(ops))
    ensures AllClean(Trades(ops)) ==> MapSum(Ledgers(Run(ops).stats)) == Cash(Trades(ops))
  {
    hide AfterFill, Times, AllClean, DustReversal;
    if ops == [] {
      assert Positions(map[]) == map[] && Ledgers(map[]) == map[];
    } else {
      var before, op := ops[..|ops| - 1], ops[|ops| - 1];
      var p := Run(before);
      Totals(before);
      if op.Deal? {
        var ts, t := Trades(before), op.trade;
        assert (ts + [t])[..|ts|] == ts;
        if AllClean(ts + [t]) {
          CleanDeal(before, t);
        }
        StepTotals(p, t);
      } else {
        assert Trades(ops) == Trades(before);
        ProjectionsOfMark(p.stats, op.price);
      }
    }
  }

  lemma MarkedEquity(s: Stats, price: real)
    requires Settled(s)
    ensures var s' := Marked(s, price); s'.realized + s'.unrealized == Ledger(s) + Times(s.position, price)
  {
    if s.position != 0.0 {
      assert OpenGain(s.position, price, s.avgPrice) == Times(s.position, price) - Times(s.position, s.avgPrice);
    }
  }

  /** No fill reversed dust and no strategy is left with any. */
  ghost predicate DustFree(ops: seq<Op>) {
    AllClean(Trades(ops)) && forall k :: k in Run(ops).stats ==> Settled(Run(ops).stats[k])
  }

  lemma GridIsDustFree(ops: seq<Op>, lot: real)
    requires InLots(Trades(ops), lot)
    ensures DustFree(ops)
  {
    hide AfterFill, Run;
    GridIsAllClean(Trades(ops), lot);
    forall k | k in Run(ops).stats ensures Settled(Run(ops).stats[k]) {
      StatsAreOwnTrades(ops, k);
    }
  }

  /** After a mark at price `m` total equity is the cash of all fills plus the net position at `m`. */
  lemma EquityIsCashPlusPosition(ops: seq<Op>, m: real)
    requires DustFree(ops)
    ensures TotalPnl(Mark(Run(ops), m).stats) == Cash(Trades(ops)) + Times(Net(Trades(ops)), m)
  {
    var stats := Run(ops).stats;
    var marked := Mark(Run(ops), m).stats;
    Totals(ops);
    forall k | k in stats ensures Equities(marked)[k] == Ledgers(stats)[k] + Scaled(Positions(stats), m)[k] {
      MarkedEquity(stats[k], m);
    }
    MapSumScale(Positions(stats), m);
    MapSumAdd(Ledgers(stats), Scaled(Positions(stats), m), Equities(marked));
  }

  /** And strategy by strategy. */
  lemma StrategyEquity(ops: seq<Op>, m: real, k: nat)
    requires k in Run(ops).stats && Clean(TradesOf(Trades(ops), k)) && Settled(Run(ops).stats[k])
    ensures var s, mine := Mark(Run(ops), m).stats[k], TradesOf(Trades(ops), k);
            s.realized + s.unrealized == Cash(mine) + Times(Net(mine), m) && s.position == Net(mine)
  {
    PerStrategy(ops, k);
    MarkedEquity(Run(ops).stats[k], m);
    hide Times, Run;
  }

  lemma {:induction false} SumsOfRemoval(ts: seq<Trade>, k: nat)
    requires k < |ts|
    ensures Net(ts) == Net(ts[..k] + ts[k + 1..]) + Signed(ts[k])
    ensures Cash(ts) == Cash(ts[..k] + ts[k + 1..]) - Times(Signed(ts[k]), ts[k].price)
  {
    var n := |ts| - 1;
    var rest := ts[..k] + ts[k + 1..];
    if k < n {
      assert ts[..n][..k] + ts[..n][k + 1..] == rest[..n - 1];
      SumsOfRemoval(ts[..n], k);
    } else {
      assert rest == ts[..n];
    }
  }

  lemma RemoveFromBoth(ts: seq<Trade>, us: seq<Trade>, k: nat)
    requires multiset(ts) == multiset(us) && ts != [] && k < |us| && us[k] == ts[|ts| - 1]
    ensures multiset(ts[..|ts| - 1]) == multiset(us[..k] + us[k + 1..])
  {
    var x := us[k];
    assert us == us[..k] + [x] + us[k + 1..];
    assert ts == ts[..|ts| - 1] + [x];
    assert multiset(us[..k] + us[k + 1..]) == multiset(us) - multiset{x};
    assert multiset(ts[..|ts| - 1]) == multiset(ts) - multiset{x};
  }

  lemma {:induction false} SumsIgnoreOrder(ts: seq<Trade>, us: seq<Trade>)
    requires multiset(ts) == multiset(us)
    ensures Net(ts) == Net(us) && Cash(ts) == Cash(us)
    decreases |ts|
  {
    hide Times;
    assert |ts| == |multiset(ts)| == |multiset(us)| == |us|;
    if ts != [] {
      var n := |ts| - 1;
      assert ts[n] in multiset(us);
      var k :| 0 <= k < |us| && us[k] == ts[n];
      var rest := us[..k] + us[k + 1..];
      RemoveFromBoth(ts, us, k);
      SumsOfRemoval(us, k);
      SumsIgnoreOrder(ts[..n], rest);
    }
  }

  /** Equity after a mark does not depend on the order in which the fills were booked, nor on
      the marks in between. */
  lemma {:induction false} EquityIgnoresOrder(a: seq<Op>, b: seq<Op>, m: real)
    requires DustFree(a) && DustFree(b) && multiset(Trades(a)) == multiset(Trades(b))
    ensures TotalPnl(Mark(Run(a), m).stats) == TotalPnl(Mark(Run(b), m).stats)
  {
    EquityIsCashPlusPosition(a, m);
    EquityIsCashPlusPosition(b, m);
    SumsIgnoreOrder(Trades(a), Trades(b));
  }

  /** In lots it is enough that the fills are the same. */
  lemma EquityIgnoresOrderInLots(a: seq<Op>, b: seq<Op>, m: real, lot: real)
    requires InLots(Trades(a), lot) && multiset(Trades(a)) == multiset(Trades(b))
    ensures TotalPnl(Mark(Run(a), m).stats) == TotalPnl(Mark(Run(b), m).stats)
  {
    forall t | t in Trades(b) ensures t in Trades(a) {
      assert t in multiset(Trades(b));
    }
    GridIsDustFree(a, lot);
    GridIsDustFree(b, lot);
    EquityIgnoresOrder(a, b, m);
  }

  // Drawdown

  /** Equity at the start and after each mark. */
  ghost function EquityTrace(ops: seq<Op>): seq<real> {
    if ops == [] then [0.0]
    else
      EquityTrace(ops[..|ops| - 1]) + if ops[|ops| - 1].MarkAt? then [TotalPnl(Run(ops).stats)] else []
  }

  ghost predicate IsPeak(es: seq<real>, x: real) {
    (exists i :: 0 <= i < |es| && es[i] == x) && forall i :: 0 <= i < |es| ==> es[i] <= x
  }

  /** `x` is the largest drop from an equity to a later one. */
  ghost predicate IsMaxDrop(es: seq<real>, x: real) {
    && (exists i, j :: 0 <= i <= j < |es| && es[i] - es[j] == x)
    && forall i, j :: 0 <= i <= j < |es| ==> es[i] - es[j] <= x
  }

  lemma PeakGrows(es: seq<real>, peak: real, e: real)
    requires IsPeak(es, peak)
    ensures IsPeak(es + [e], Max(peak, e))
  {
    var fs, n := es + [e], |es|;
    var p :| 0 <= p < n && es[p] == peak;
    assert fs[if peak < e then n else p] == Max(peak, e);
  }

  lemma DropGrows(es: seq<real>, peak: real, drop: real, e: real)
    requires IsPeak(es, peak) && IsMaxDrop(es, drop)
    ensures IsMaxDrop(es + [e], Max(drop, Max(peak, e) - e))
  {
    var fs, n := es + [e], |es|;
    var drop' := Max(drop, Max(peak, e) - e);
    var p :| 0 <= p < n && es[p] == peak;
    var i, j :| 0 <= i <= j < n && es[i] - es[j] == drop;
    assert fs[n] == e && fs[p] == peak && fs[i] == es[i] && fs[j] == es[j];
    var (a, b) := if drop' == drop then (i, j) else if peak < e then (n, n) else (p, n);
    assert fs[a] - fs[b] == drop';
    forall k, l | 0 <= k <= l < |fs| ensures fs[k] - fs[l] <= drop' {
      DropOfPair(es, peak, drop, e, k, l);
    }
  }

  lemma DropOfPair(es: seq<real>, peak: real, drop: real, e: real, k: nat, l: nat)
    requires IsPeak(es, peak) && IsMaxDrop(es, drop) && k <= l <= |es|
    ensures (es + [e])[k] - (es + [e])[l] <= Max(drop, Max(peak, e) - e)
  {
    assert k < |es| ==> (es + [e])[k] == es[k];
    assert l < |es| ==> (es + [e])[l] == es[l];
  }

  /** The online drawdown is the largest drop over all pairs of moments, the flat start included. */
  lemma {:induction false} DrawdownIsMaxDrop(ops: seq<Op>)
    ensures IsPeak(EquityTrace(ops), Run(ops).peakEquity)
    ensures IsMaxDrop(EquityTrace(ops), Run(ops).maxDrawdown)
  {
    hide AfterFill, Marked, MapSum;
    if ops == [] {
      assert EquityTrace(ops)[0] == 0.0;
    } else {
      var before, op := ops[..|ops| - 1], ops[|ops| - 1];
      DrawdownIsMaxDrop(before);
      if op.MarkAt? {
        var es, e := EquityTrace(before), TotalPnl(Run(ops).stats);
        PeakGrows(es, Run(before).peakEquity, e);
        DropGrows(es, Run(before).peakEquity, Run(before).maxDrawdown, e);
      } else {
        assert EquityTrace(ops) == EquityTrace(before);
      }
    }
  }
}
