/** Average-cost bookkeeping and drawdown (pnl/pnl_engine.cpp), over exact reals. */
module PnLEngines {
  import opened Events
  import opened MapSums

  /** The tests against 1e-9. */
  const DUST := 0.000000001

  datatype Stats = Stats(realized: real, unrealized: real, position: real, avgPrice: real, trades: nat)

  const NO_STATS := Stats(0.0, 0.0, 0.0, 0.0, 0)

  datatype PnL = PnL(stats: map<nat, Stats>, lastPrice: real, peakEquity: real, maxDrawdown: real)

  const NEW_PNL := PnL(map[], 0.0, 0.0, 0.0)

  predicate Increases(s: Stats, side: Side, qty: real) {
    var fill := SignedQty(side, qty);
    (s.position > 0.0 && fill > 0.0) || (s.position < 0.0 && fill < 0.0) || Abs(s.position) < DUST
  }

  function WeightedAverage(avg: real, held: real, price: real, qty: real, total: real): real
    requires total != 0.0
  {
    ((avg * held) + (price * qty)) / total
  }

  function Gain(closing: real, price: real, avg: real, mult: real): real {
    closing * (price - avg) * mult
  }

  function OpenGain(position: real, price: real, avg: real): real {
    position * (price - avg)
  }

  /** `on_fill` for one strategy. Where the source divides by a zero position (a fill that
      exactly undoes dust) the average is left as it was. */
  function AfterFill(s: Stats, side: Side, price: real, qty: real): Stats {
    var fill := SignedQty(side, qty);
    if Increases(s, side, qty) then
      var newPos := s.position + fill;
      var avg := if newPos == 0.0 then s.avgPrice
                 else WeightedAverage(s.avgPrice, Abs(s.position), price, qty, Abs(newPos));
      s.(avgPrice := avg, position := newPos)
    else
      var closing := Min(Abs(s.position), qty);
      var mult := if s.position > 0.0 then 1.0 else -1.0;
      s.(realized := s.realized + Gain(closing, price, s.avgPrice, mult),
         trades := s.trades + 1,
         avgPrice := if qty > Abs(s.position) then price else s.avgPrice,
         position := s.position + fill)
  }

  function OnFill(p: PnL, strategy: nat, side: Side, price: real, qty: real): PnL {
    var s := if strategy in p.stats then p.stats[strategy] else NO_STATS;
    p.(stats := p.stats[strategy := AfterFill(s, side, price, qty)])
  }

  function Marked(s: Stats, price: real): Stats {
    s.(unrealized := if Abs(s.position) > DUST then OpenGain(s.position, price, s.avgPrice) else 0.0)
  }

  function MarkSome(stats: map<nat, Stats>, done: set<nat>, price: real): map<nat, Stats> {
    map k | k in stats :: if k in done then Marked(stats[k], price) else stats[k]
  }

  function Equities(stats: map<nat, Stats>): map<nat, real> {
    map k | k in stats :: stats[k].realized + stats[k].unrealized
  }

  function EquitiesOf(stats: map<nat, Stats>, some: set<nat>): map<nat, real>
    requires some <= stats.Keys
  {
    map k | k in some :: stats[k].realized + stats[k].unrealized
  }

  function Positions(stats: map<nat, Stats>): map<nat, real> {
    map k | k in stats :: stats[k].position
  }

  ghost function TotalPnl(stats: map<nat, Stats>): real {
    MapSum(Equities(stats))
  }

  ghost function TotalPosition(stats: map<nat, Stats>): real {
    MapSum(Positions(stats))
  }

  /** `update_pnl` */
  ghost function Mark(p: PnL, price: real): PnL {
    var stats := MarkSome(p.stats, p.stats.Keys, price);
    var peak := Max(p.peakEquity, TotalPnl(stats));
    PnL(stats, price, peak, Max(p.maxDrawdown, peak - TotalPnl(stats)))
  }

  class PnLEngine {
    var stats: map<nat, Stats>
    var lastPrice: real
    var peakEquity: real
    var maxDrawdown: real

    ghost function View(): PnL
      reads this
    {
      PnL(stats, lastPrice, peakEquity, maxDrawdown)
    }

    constructor ()
      ensures View() == NEW_PNL
    {
      stats, lastPrice, peakEquity, maxDrawdown := map[], 0.0, 0.0, 0.0;
    }

    method Fill(strategy: nat, side: Side, price: real, qty: real)
      modifies this
      ensures View() == OnFill(old(View()), strategy, side, price, qty)
    {
      var s := if strategy in stats then stats[strategy] else NO_STATS;
      ghost var s0 := s;
      var fill := SignedQty(side, qty);
      if (s.position > 0.0 && fill > 0.0) || (s.position < 0.0 && fill < 0.0) || Abs(s.position) < DUST {
        var newPos := s.position + fill;
        if newPos != 0.0 {
          s := s.(avgPrice := WeightedAverage(s.avgPrice, Abs(s.position), price, qty, Abs(newPos)));
        }
      } else {
        var closing := Min(Abs(s.position), qty);
        var mult := if s.position > 0.0 then 1.0 else -1.0;
        s := s.(realized := s.realized + Gain(closing, price, s.avgPrice, mult), trades := s.trades + 1);
        if qty > Abs(s.position) {
          s := s.(avgPrice := price);
        }
      }
      s := s.(position := s.position + fill);
      assert s == AfterFill(s0, side, price, qty);
      stats := stats[strategy := s];
    }

    method UpdatePnl(price: real)
      modifies this
      ensures View() == Mark(old(View()), price)
    {
      lastPrice := price;
      var total := 0.0;
      ghost var before, done := stats, {};
      var todo := stats.Keys;
      while todo != {}
        invariant lastPrice == price && peakEquity == old(peakEquity) && maxDrawdown == old(maxDrawdown)
        invariant done !! todo && done + todo == before.Keys
        invariant MarkedSoFar(before, done, price, stats, total)
        decreases todo
      {
        var id :| id in todo;
        var s := stats[id];
        if Abs(s.position) > DUST {
          s := s.(unrealized := OpenGain(s.position, price, s.avgPrice));
        } else {
          s := s.(unrealized := 0.0);
        }
        assert s == Marked(before[id], price);
        OneMoreMarked(before, done, id, price, stats, total);
        stats := stats[id := s];
        total := total + (s.realized + s.unrealized);
        done, todo := done + {id}, todo - {id};
      }
      assert EquitiesOf(stats, done) == Equities(stats);
      peakEquity := Max(peakEquity, total);
      maxDrawdown := Max(maxDrawdown, peakEquity - total);
    }

    method GetTotalPnl() returns (total: real)
      ensures total == TotalPnl(stats)
    {
      total := SumValues(map k | k in stats :: stats[k].realized + stats[k].unrealized);
    }

    method GetTotalPosition() returns (total: real)
      ensures total == TotalPosition(stats)
    {
      total := SumValues(map k | k in stats :: stats[k].position);
    }
  }

  method SumValues(m: map<nat, real>) returns (total: real)
    ensures total == MapSum(m)
  {
    total := 0.0;
    var todo := m;
    while todo != map[]
      invariant total + MapSum(todo) == MapSum(m)
      decreases |todo|
    {
      var k :| k in todo.Keys;
      MapSumPick(todo, k);
      total := total + todo[k];
      assert todo.Keys - {k} == (todo - {k}).Keys;
      todo := todo - {k};
    }
  }

  /** The loop of `update_pnl` after the strategies in `done`. */
  ghost predicate MarkedSoFar(
      before: map<nat, Stats>, done: set<nat>, price: real, stats: map<nat, Stats>, total: real)
  {
    && done <= before.Keys
    && stats == MarkSome(before, done, price)
    && total == MapSum(EquitiesOf(stats, done))
  }

  lemma OneMoreMarked(
      before: map<nat, Stats>, done: set<nat>, id: nat, price: real, stats: map<nat, Stats>, total: real)
    requires MarkedSoFar(before, done, price, stats, total) && id in before && id !in done
    ensures stats[id] == before[id]
    ensures var s := Marked(before[id], price);
            MarkedSoFar(before, done + {id}, price, stats[id := s], total + (s.realized + s.unrealized))
  {
    var s := Marked(before[id], price);
    var done', stats' := done + {id}, stats[id := s];
    assert stats' == MarkSome(before, done', price);
    assert EquitiesOf(stats', done') == EquitiesOf(stats, done)[id := s.realized + s.unrealized];
    MapSumSet(EquitiesOf(stats, done), id, s.realized + s.unrealized);
  }
}
