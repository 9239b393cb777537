/**
 What the market maker is shown. Theorems about all runs leave that open. A theorem that a certain
 run exists says which of these it is: main.cpp as it stands, where nothing feeds the order book, or
 the same loop with a book that is fed each tick before the strategies see it.
 */
module LoopWiring {
  import opened Events
  import opened EventLoops
  import opened LoopSteps
  import MM = MarketMakers
  import OB = OrderBooks

  datatype Wiring = AsWired | BookFed

  function TicksIn(es: seq<Event>): seq<Tick> {
    if es == [] then []
    else TicksIn(es[..|es| - 1]) + if es[|es| - 1].MarketData? then [es[|es| - 1].tick] else []
  }

  /** The best levels of two sides that have any. */
  ghost predicate BestOf(bids: seq<OB.Level>, asks: seq<OB.Level>, top: Option<MM.TopOfBook>) {
    bids != [] && asks != [] && top.Some? &&
    top.value == MM.Top(bids[0].price, bids[0].quantity, asks[0].price, asks[0].quantity)
  }

  /** A book fed these trades shows this. */
  ghost predicate Shows(trades: seq<Tick>, top: Option<MM.TopOfBook>) {
    var bidTrades, askTrades := OB.SideTrades(trades, true), OB.SideTrades(trades, false);
    if bidTrades == [] || askTrades == [] then top.None?
    else exists bids, asks ::
      OB.IsSide(bids, bidTrades, true) && OB.IsSide(asks, askTrades, false) && BestOf(bids, asks, top)
  }

  /** May `env` be the input when `e` is handled after `before`? Only ticks look at it. */
  ghost predicate Fits(w: Wiring, before: seq<Event>, e: Event, env: Env) {
    match w
    case AsWired => env.top.None?
    case BookFed => e.MarketData? ==> Shows(TicksIn(before) + [e.tick], env.top)
  }

  ghost predicate Allowed(w: Wiring, s: Loop, env: Env) {
    if s.batch == [] then w.AsWired? ==> env.top.None? else Fits(w, s.handled, s.batch[0], env)
  }

  /** All inputs of a run are what this wiring shows. */
  ghost predicate AllowedRun(w: Wiring, s: Loop, envs: seq<Env>) {
    envs == [] ||
    var n := |envs| - 1;
    AllowedRun(w, s, envs[..n]) && Allowed(w, Run(s, envs[..n]), envs[n])
  }

  lemma {:induction false} AllowedAppend(w: Wiring, s: Loop, a: seq<Env>, b: seq<Env>)
    requires AllowedRun(w, s, a) && AllowedRun(w, Run(s, a), b)
    ensures AllowedRun(w, s, a + b)
  {
    hide Run, Allowed;
    if b == [] {
      assert a + b == a;
    } else {
      var n := |b| - 1;
      assert (a + b)[..|a + b| - 1] == a + b[..n];
      AllowedAppend(w, s, a, b[..n]);
      RunAppend(s, a, b[..n]);
    }
  }

  /** As wired, no input of the run shows a book. */
  lemma {:induction false} AsWiredHasNoBook(s: Loop, envs: seq<Env>)
    requires AllowedRun(AsWired, s, envs)
    ensures forall i :: 0 <= i < |envs| ==> envs[i].top.None?
  {
    hide Run;
    if envs != [] {
      AsWiredHasNoBook(s, envs[..|envs| - 1]);
    }
  }
}
