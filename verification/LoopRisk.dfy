/**
 The position limit over whole runs. The check looks at the current position only, so the
 limit can be passed by the orders that were under way when an order was checked; this bounds
 by how much. Dropped events do no harm here.
 */
module LoopRisk {
  import opened Events
  import opened EventQueues
  import opened EventLoops
  import opened LoopSteps
  import opened LoopMeasures
  import opened LoopDrains
  import opened LoopLifecycle
  import opened MapSums
  import EX = MatchingEngines
  import OM = OrderManagers

  /** The position as seen from one side: long for Buy, short for Sell. */
  function Exposure(c: System, side: Side): real {
    SignedQty(side, c.risk.position)
  }

  /** What the exposure becomes if everything outstanding on that side fills. */
  ghost function WorstExposure(s: Loop, side: Side): real {
    Exposure(s.sys, side) + Sum(Pending(OnSide(side)), s)
  }

  predicate EventAtMost(e: Event, side: Side, q: real) {
    match e
    case ValidatedOrder(o) => o.side == side ==> o.quantity <= q
    case ExecutionReport(r) => r.status.Filled? && r.side == side ==> r.lastQty <= q
    case _ => true
  }

  /** At most k accepted orders of one side may still change the position, each of at most q:
      queued for the exchange, resting there, or filled and not yet applied. What waits in the
      batch counts as queued. */
  ghost predicate OutstandingAtMost(s: Loop, side: Side, k: nat, q: real) {
    && Sum(Outstanding(side), s) <= k as real
    && (forall e :: e in Underway(s) ==> EventAtMost(e, side, q))
    && (forall o :: o in s.sys.exchange.resting && o.side == side ==> o.quantity <= q)
  }

  lemma {:induction false} QueueQuantity(es: seq<Event>, side: Side, q: real)
    requires q >= 0.0 && forall e :: e in es ==> EventAtMost(e, side, q)
    ensures Total(Pending(OnSide(side)), es) <= Times(Total(Outstanding(side), es), q)
  {
    TimesZero(q);
    if es != [] {
      var n := |es| - 1;
      assert es[n] in es;
      QueueQuantity(es[..n], side, q);
      TimesDistributes(Total(Outstanding(side), es[..n]), Value(Outstanding(side), es[n]), q);
      assert Times(1.0, q) == q;
      hide Times;
    }
  }

  lemma {:induction false} RestQuantity(rs: seq<Order>, side: Side, q: real)
    requires q >= 0.0 && forall o :: o in rs && o.side == side ==> o.quantity <= q
    ensures RestTotal(Pending(OnSide(side)), rs) <= Times(RestTotal(Outstanding(side), rs), q)
  {
    TimesZero(q);
    if rs != [] {
      var n := |rs| - 1;
      assert rs[n] in rs;
      RestQuantity(rs[..n], side, q);
      TimesDistributes(RestTotal(Outstanding(side), rs[..n]), OrderValue(Outstanding(side), rs[n]), q);
      assert Times(1.0, q) == q;
      hide Times;
    }
  }

  lemma TimesMonotone(x: real, y: real, q: real)
    requires q >= 0.0 && x <= y
    ensures Times(x, q) <= Times(y, q)
  {
    assert Times(y - x, q) >= 0.0;
  }

  /** With at most `n` orders outstanding their quantity is at most n times the largest one. */
  lemma PendingIsBounded(s: Loop, side: Side, k: nat, q: real, n: real)
    requires q >= 0.0 && OutstandingAtMost(s, side, k, q) && Sum(Outstanding(side), s) <= n
    ensures Sum(Pending(OnSide(side)), s) <= Times(n, q)
  {
    var rest := s.sys.exchange.resting;
    QueueQuantity(Underway(s), side, q);
    RestQuantity(rest, side, q);
    TimesDistributes(Total(Outstanding(side), Underway(s)), RestTotal(Outstanding(side), rest), q);
    TimesMonotone(Sum(Outstanding(side), s), n, q);
    hide Times, Total, RestTotal;
  }

  lemma {:induction false} StrategiesAddNothing(m: Measure, es: seq<Event>)
    requires !m.Weight? && !m.Requested? && !m.Unsent?
    requires forall e :: e in es ==> e.CancelOrder? || e.OrderRequest?
    ensures Total(m, es) == 0.0
  {
    if es != [] {
      assert es[|es| - 1] in es;
      StrategiesAddNothing(m, es[..|es| - 1]);
    }
  }

  lemma StrategiesSend(c: System, price: real, env: Env)
    ensures forall e :: e in StrategiesOnTick(c, price, env).2 ==> e.CancelOrder? || e.OrderRequest?
  {
    QuoteEvents(c.maker.(position := EventLoops.PE.TotalPosition(c.pnl.stats)), env.top, env.elapsed);
    TrendEvents(c.momentum, price);
    hide EventLoops.MM.OnBook, EventLoops.MO.OnPrice;
  }

  /** Except for accepting an order, no event raises the worst exposure. */
  lemma OnlyAcceptanceRaises(c: System, e: Event, env: Env, side: Side)
    requires EventSized(e) && !e.OrderRequest?
    ensures var c' := React(c, e, env).0;
            Gain(Pending(OnSide(side)), c, e, env) + Exposure(c', side) <= Exposure(c, side) &&
            c'.risk.maxPosition == c.risk.maxPosition
  {
    var m := Pending(OnSide(side));
    match e
    case MarketData(t) =>
      GainOfTick(m, c, t, env);
      StrategiesSend(c, t.price, env);
      StrategiesAddNothing(m, StrategiesOnTick(c, t.price, env).2);
      hide StrategiesOnTick, EX.OnTick;
    case ValidatedOrder(o) =>
      GainOfOrder(m, c, o, env);
    case CancelOrder(id) =>
      GainOfCancel(m, c, id, env);
    case ExecutionReport(r) =>
      GainOfReport(m, c, r, env);
      hide EventLoops.PE.Mark, EventLoops.PE.OnFill;
  }

  /** A push of one event adds its value for every measure, or for none. */
  lemma PushOne(m: Measure, q: Queue, e: Event, pushed: bool)
    requires !m.Weight? && (pushed <==> |Arrive(q).items| < q.capacity)
    ensures Total(m, AfterPushes(q, [e]).items) == Total(m, q.items) + When(pushed, Value(m, e))
  {
    OnePush(q, e);
    ArriveEffect(m, q);
    TotalAppend(m, Arrive(q).items, [e]);
    TotalOne(m, e);
    hide Arrive, Value, Total;
  }

  /** Accepting an order, or turning it down, changes the sums by the order's own value, or, if the
      push fails, by nothing, and in the same way for every measure. */
  lemma RequestEffect(m: Measure, s: Loop, env: Env, o: Order)
    requires s.batch != [] && s.batch[0] == OrderRequest(o) && !m.Weight? && !m.Requested? && !m.Unsent?
    ensures var accepted := OM.Validates(s.sys.risk, o) && |Arrive(s.queue).items| < s.queue.capacity;
            Sum(m, Step(s, env)) == Sum(m, s) + When(accepted, OrderValue(m, o))
    ensures Step(s, env).sys.risk == s.sys.risk
  {
    var q' := Step(s, env).queue;
    assert Underway(s)[0] == s.batch[0] && Underway(s)[1..] == s.batch[1..] + s.queue.items;
    TotalHead(m, Underway(s));
    TotalAppend(m, s.batch[1..], s.queue.items);
    TotalAppend(m, s.batch[1..], q'.items);
    hide Arrive, Total, AfterPush, AfterPushes;
    if OM.Validates(s.sys.risk, o) {
      PushOne(m, s.queue, ValidatedOrder(o), |Arrive(s.queue).items| < s.queue.capacity);
    } else {
      NoPush(s.queue);
    }
  }

  lemma NoPush(q: Queue)
    ensures AfterPushes(q, []) == q
  {
  }

  /** Accepting an order: the check covers this order, the count covers the others. */
  lemma AcceptanceStep(s: Loop, env: Env, side: Side, k: nat, q: real)
    requires Basic(s) && q >= 0.0 && k >= 1
    requires s.batch != [] && s.batch[0].OrderRequest?
    requires OutstandingAtMost(s, side, k, q) && OutstandingAtMost(Step(s, env), side, k, q)
    requires WorstExposure(s, side) <= s.sys.risk.maxPosition + Times((k - 1) as real, q)
    ensures WorstExposure(Step(s, env), side) <= s.sys.risk.maxPosition + Times((k - 1) as real, q)
    ensures Step(s, env).sys.risk == s.sys.risk
  {
    var o := s.batch[0].order;
    RequestEffect(Pending(OnSide(side)), s, env, o);
    RequestEffect(Outstanding(side), s, env, o);
    var accepted := OM.Validates(s.sys.risk, o) && |Arrive(s.queue).items| < s.queue.capacity;
    hide Step, Arrive, Times, Sum;
    if accepted && o.side == side {
      hide Basic;
      PendingIsBounded(s, side, k, q, (k - 1) as real);
    }
    hide OutstandingAtMost;
  }

  lemma ExposureStep(s: Loop, env: Env, side: Side, k: nat, q: real)
    requires Basic(s) && q >= 0.0 && k >= 1
    requires OutstandingAtMost(s, side, k, q) && OutstandingAtMost(Step(s, env), side, k, q)
    requires WorstExposure(s, side) <= s.sys.risk.maxPosition + Times((k - 1) as real, q)
    ensures WorstExposure(Step(s, env), side) <= s.sys.risk.maxPosition + Times((k - 1) as real, q)
    ensures Step(s, env).sys.risk.maxPosition == s.sys.risk.maxPosition
  {
    if s.batch != [] && s.batch[0].OrderRequest? {
      AcceptanceStep(s, env, side, k, q);
    } else {
      StepKeepsBasic(s, env);
      StepEffect(Pending(OnSide(side)), s, env);
      hide React, AfterPushes, PopUpTo, Times, OutstandingAtMost, Sum, Gain, Basic;
      if s.batch != [] {
        OnlyAcceptanceRaises(s.sys, s.batch[0], env, side);
      }
    }
  }

  /** The outstanding orders stay within k and q at every moment of the run. */
  ghost predicate AlwaysAtMost(s0: Loop, envs: seq<Env>, side: Side, k: nat, q: real) {
    forall n :: 0 <= n <= |envs| ==> OutstandingAtMost(Run(s0, envs[..n]), side, k, q)
  }

  lemma {:induction false} WorstExposureBound(
      capacity: nat, feed: seq<seq<Tick>>, maxPosition: real, envs: seq<Env>, side: Side, k: nat, q: real)
    requires k >= 1 && q >= 0.0 && maxPosition >= 0.0
    requires AlwaysAtMost(Start(capacity, feed, maxPosition), envs, side, k, q)
    ensures var s := Run(Start(capacity, feed, maxPosition), envs);
            WorstExposure(s, side) <= maxPosition + Times((k - 1) as real, q) && s.sys.risk.maxPosition == maxPosition
  {
    var s0 := Start(capacity, feed, maxPosition);
    if envs == [] {
      TimesMonotone(0.0, (k - 1) as real, q);
      TimesZero(q);
    } else {
      var n := |envs| - 1;
      assert envs[..|envs|] == envs;
      assert OutstandingAtMost(Run(s0, envs[..n]), side, k, q) &&
        OutstandingAtMost(Run(s0, envs[..|envs|]), side, k, q);
      assert AlwaysAtMost(s0, envs[..n], side, k, q) by {
        forall i | 0 <= i <= n ensures OutstandingAtMost(Run(s0, envs[..n][..i]), side, k, q) {
          assert envs[..n][..i] == envs[..i];
        }
      }
      WorstExposureBound(capacity, feed, maxPosition, envs[..n], side, k, q);
      WorkIsPaidFor(capacity, feed, maxPosition, envs[..n]);
      hide Step, OutstandingAtMost, WorstExposure, Times;
      ExposureStep(Run(s0, envs[..n]), envs[n], side, k, q);
    }
  }

  /** The risk bound: if on one side never more than k accepted orders of at most q each are
      outstanding at once, the exposure on that side never exceeds the limit by more than
      (k - 1) * q. With k = 1 the plain limit holds. */
  lemma {:induction false} ExposureBound(
      capacity: nat, feed: seq<seq<Tick>>, maxPosition: real, envs: seq<Env>, side: Side, k: nat, q: real)
    requires k >= 1 && q >= 0.0 && maxPosition >= 0.0
    requires AlwaysAtMost(Start(capacity, feed, maxPosition), envs, side, k, q)
    ensures Exposure(Run(Start(capacity, feed, maxPosition), envs).sys, side) <= maxPosition + (k - 1) as real * q
  {
    WorstExposureBound(capacity, feed, maxPosition, envs, side, k, q);
    WorkIsPaidFor(capacity, feed, maxPosition, envs);
    SumNonNegative(Pending(OnSide(side)), Run(Start(capacity, feed, maxPosition), envs));
  }

  lemma {:induction false} PositionBound(
      capacity: nat, feed: seq<seq<Tick>>, maxPosition: real, envs: seq<Env>, k: nat, q: real)
    requires k >= 1 && q >= 0.0 && maxPosition >= 0.0
    requires AlwaysAtMost(Start(capacity, feed, maxPosition), envs, Buy, k, q)
    requires AlwaysAtMost(Start(capacity, feed, maxPosition), envs, Sell, k, q)
    ensures Abs(Run(Start(capacity, feed, maxPosition), envs).sys.risk.position) <= maxPosition + (k - 1) as real * q
  {
    ExposureBound(capacity, feed, maxPosition, envs, Buy, k, q);
    ExposureBound(capacity, feed, maxPosition, envs, Sell, k, q);
  }

  /** Half a coin per order is no assumption: it is the largest quantity a strategy sends. */
  lemma SizesAreAtMostHalf(s: Loop, side: Side, k: nat)
    requires Basic(s) && Sum(Outstanding(side), s) <= k as real
    ensures OutstandingAtMost(s, side, k, 0.5)
  {
    forall e | e in Underway(s) ensures EventAtMost(e, side, 0.5) {
      assert EventSized(e);
    }
  }

  lemma {:induction false} CountBoundIsEnough(s0: Loop, envs: seq<Env>, side: Side, k: nat)
    requires Basic(s0) && forall n :: 0 <= n <= |envs| ==> Sum(Outstanding(side), Run(s0, envs[..n])) <= k as real
    ensures Basic(Run(s0, envs)) && AlwaysAtMost(s0, envs, side, k, 0.5)
  {
    hide Step, Basic, OutstandingAtMost, Sum;
    assert envs[..|envs|] == envs;
    assert Sum(Outstanding(side), Run(s0, envs[..|envs|])) <= k as real;
    if envs != [] {
      var n := |envs| - 1;
      forall i | 0 <= i <= n ensures envs[..n][..i] == envs[..i] {
      }
      CountBoundIsEnough(s0, envs[..n], side, k);
      StepKeepsBasic(Run(s0, envs[..n]), envs[n]);
    }
    SizesAreAtMostHalf(Run(s0, envs), side, k);
    forall i | 0 <= i <= |envs| ensures OutstandingAtMost(Run(s0, envs[..i]), side, k, 0.5) {
      if i < |envs| {
        assert envs[..|envs| - 1][..i] == envs[..i];
      }
    }
  }

  /** For the strategies of the source: a bound on the number alone gives a bound on the position. */
  lemma {:induction false} PositionBoundForStrategies(
      capacity: nat, feed: seq<seq<Tick>>, maxPosition: real, envs: seq<Env>, k: nat)
    requires k >= 1 && maxPosition >= 0.0
    requires forall n, side :: 0 <= n <= |envs| ==>
             Sum(Outstanding(side), Run(Start(capacity, feed, maxPosition), envs[..n])) <= k as real
    ensures Abs(Run(Start(capacity, feed, maxPosition), envs).sys.risk.position) <= maxPosition + (k - 1) as real * 0.5
  {
    WorkIsPaidFor(capacity, feed, maxPosition, []);
    CountBoundIsEnough(Start(capacity, feed, maxPosition), envs, Buy, k);
    CountBoundIsEnough(Start(capacity, feed, maxPosition), envs, Sell, k);
    hide Step, Sum, AlwaysAtMost;
    PositionBound(capacity, feed, maxPosition, envs, k, 0.5);
  }
}
