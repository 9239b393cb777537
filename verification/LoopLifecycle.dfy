/**
 Where an order can be. In runs without a failed push, and as long as the two strategies' id
 ranges have not met, the orders the order manager holds active are exactly the accepted
 orders that have not ended, minus those whose cancellation it has been told of.
 */
module LoopLifecycle {
  import opened Events
  import opened EventQueues
  import opened EventLoops
  import opened LoopSteps
  import opened LoopMeasures
  import opened LoopDrains
  import MM = MarketMakers
  import MO = Momentums
  import EX = MatchingEngines
  import OM = OrderManagers

  /** The ids of the Cancelled reports handled so far. */
  function CancelledIn(rs: seq<Report>): set<nat> {
    if rs == [] then {}
    else
      var r := rs[|rs| - 1];
      CancelledIn(rs[..|rs| - 1]) + if r.status.Cancelled? then {r.orderId} else {}
  }

  /** How many of the handled reports filled or rejected this id; a real, as the measure it is added to. */
  function Ended(rs: seq<Report>, id: nat): real {
    if rs == [] then 0.0 else Ended(rs[..|rs| - 1], id) + ReportValue(Live(id), rs[|rs| - 1])
  }

  predicate Issued(c: System, id: nat) {
    MM.FIRST_ID <= id < c.maker.nextId || MO.FIRST_ID <= id < c.momentum.nextId
  }

  predicate CancelsId(e: Event, id: nat) {
    (e.CancelOrder? && e.id == id) || (e.ExecutionReport? && e.report.status.Cancelled? && e.report.orderId == id)
  }

  predicate EndsId(e: Event, id: nat) {
    e.ExecutionReport? && e.report.orderId == id && (e.report.status.Filled? || e.report.status.Rejected?)
  }

  /** No cancellation is queued ahead of the request it is for. */
  ghost predicate Ordered(es: seq<Event>) {
    forall i, j :: 0 <= i < j < |es| && es[j].OrderRequest? ==> !CancelsId(es[i], es[j].order.id)
  }

  ghost predicate CancelsIssued(c: System, es: seq<Event>) {
    forall e, id :: e in es && CancelsId(e, id) ==> Issued(c, id)
  }

  ghost predicate IdsOk(c: System) {
    && c.maker.nextId >= MM.FIRST_ID && c.momentum.nextId >= MO.FIRST_ID
    && forall id :: id in c.maker.active ==> MM.FIRST_ID <= id < c.maker.nextId
  }

  /** Everything about one id: how often it is requested, live and ended, and what the order
      manager knows of it. */
  datatype Life = Life(requested: real, live: real, ended: real, cancelled: bool, active: bool, issued: bool)

  ghost function LifeOf(s: Loop, id: nat): Life {
    Life(Sum(Requested(id), s), Sum(Live(id), s), Ended(s.sys.log.reports, id),
         id in CancelledIn(s.sys.log.reports), id in s.sys.active, Issued(s.sys, id))
  }

  ghost predicate LifeOk(l: Life) {
    && l.requested >= 0.0 && l.live >= 0.0 && l.ended >= 0.0 && l.requested + l.live + l.ended <= 1.0
    && (l.requested + l.live + l.ended > 0.0 || l.cancelled ==> l.issued)
    && (l.cancelled ==> l.requested == 0.0)
    && (l.active <==> l.live >= 1.0 && !l.cancelled)
  }

  ghost predicate LifeInv(s: Loop) {
    && Basic(s) && IdsOk(s.sys)
    && Ordered(Underway(s)) && CancelsIssued(s.sys, Underway(s))
    && forall id :: LifeOk(LifeOf(s, id))
  }

  // The order of requests and cancellations

  /** Requests in `es` are for ids nobody has cancelled yet. */
  ghost predicate FreshRequests(c: System, es: seq<Event>) {
    forall e :: e in es && e.OrderRequest? ==> !Issued(c, e.order.id)
  }

  lemma ExtendsOrdered(c: System, before: seq<Event>, after: seq<Event>, sent: seq<Event>)
    requires Ordered(before) && CancelsIssued(c, before) && Extends(before, after, sent)
    requires CancelsIssued(c, sent) && FreshRequests(c, sent)
    ensures Ordered(after) && CancelsIssued(c, after)
  {
    ExtendsMembers(before, after, sent);
    assert CancelsIssued(c, after);
    var n := |before|;
    forall i, j | 0 <= i < j < |after| && after[j].OrderRequest? ensures !CancelsId(after[i], after[j].order.id) {
      assert after[i] in after;
      if j < n {
        assert before[i] == after[i] && before[j] == after[j];
      } else {
        assert after[n..][j - n] == after[j];
      }
    }
  }

  // What the strategies send

  lemma {:induction false} CancelsMembers(ids: seq<nat>)
    ensures forall e :: e in MM.Cancels(ids) ==> e.CancelOrder? && e.id in ids
  {
    if ids != [] {
      CancelsMembers(ids[..|ids| - 1]);
    }
  }

  lemma QuoteEvents(m: MM.MarketMaker, top: Option<MM.TopOfBook>, elapsed: bool)
    ensures var (m', es) := MM.OnBook(m, top, elapsed);
            m'.nextId >= m.nextId &&
            (forall e :: e in es ==>
               (e.CancelOrder? && e.id in m.active) || (e.OrderRequest? && m.nextId <= e.order.id < m'.nextId)) &&
            (forall id :: id in m'.active ==> id in m.active || m.nextId <= id < m'.nextId)
  {
    hide MM.BidQuote, MM.AskQuote, MM.Cancels, MM.Requotes;
    CancelsMembers(m.active);
  }

  lemma TrendEvents(m: MO.Momentum, price: real)
    ensures var (m', os) := MO.OnPrice(m, price);
            (os == [] && m'.nextId == m.nextId) || (|os| == 1 && os[0].id == m.nextId && m'.nextId == m.nextId + 1)
  {
    hide MO.Bullish, MO.Bearish;
  }

  /** How often `id` occurs. */
  function Count(ids: seq<nat>, id: nat): real {
    if ids == [] then 0.0 else Count(ids[..|ids| - 1], id) + When(ids[|ids| - 1] == id, 1.0)
  }

  lemma {:induction false} RequestedTotal(es: seq<Event>, id: nat)
    ensures Total(Requested(id), es) == Count(MM.RequestedIds(es), id)
  {
    if es != [] {
      var n := |es| - 1;
      RequestedTotal(es[..n], id);
      var ids := MM.RequestedIds(es[..n]);
      if es[n].OrderRequest? {
        assert (ids + [es[n].order.id])[..|ids|] == ids;
      } else {
        assert ids + [] == ids;
      }
    }
  }

  lemma {:induction false} RangeCount(first: nat, next: nat, id: nat)
    requires first <= next
    ensures Count(MM.IdRange(first, next), id) == When(first <= id < next, 1.0)
    decreases next
  {
    if first < next {
      assert MM.IdRange(first, next)[..next - first - 1] == MM.IdRange(first, next - 1);
      RangeCount(first, next - 1, id);
    }
  }

  /** A tick requests each newly issued id once, and nothing else. */
  lemma TickRequests(c: System, price: real, env: Env, id: nat)
    requires IdsOk(c) && StrategiesOnTick(c, price, env).0.nextId <= MO.FIRST_ID
    ensures var (maker, momentum, sent) := StrategiesOnTick(c, price, env);
            Total(Requested(id), sent) ==
              When(c.maker.nextId <= id < maker.nextId || c.momentum.nextId <= id < momentum.nextId, 1.0) &&
            c.maker.nextId <= maker.nextId && c.momentum.nextId <= momentum.nextId
  {
    var m := c.maker.(position := EventLoops.PE.TotalPosition(c.pnl.stats));
    MM.IdsOfTurn(m, env.top, env.elapsed);
    TrendEvents(c.momentum, price);
    var quotes := MM.OnBook(m, env.top, env.elapsed).1;
    var os := MO.OnPrice(c.momentum, price).1;
    hide MM.OnBook, MO.OnPrice;
    RequestedTotal(quotes, id);
    RangeCount(m.nextId, StrategiesOnTick(c, price, env).0.nextId, id);
    TotalAppend(Requested(id), quotes, MO.Requests(os));
    if os != [] {
      assert MO.Requests(os) == [OrderRequest(os[0])];
      TotalOne(Requested(id), OrderRequest(os[0]));
    }
  }

  lemma TickSendsFresh(c: System, price: real, env: Env)
    requires IdsOk(c) && StrategiesOnTick(c, price, env).0.nextId <= MO.FIRST_ID
    ensures var (maker, momentum, sent) := StrategiesOnTick(c, price, env);
            var c' := c.(maker := maker, momentum := momentum);
            IdsOk(c') && CancelsIssued(c, sent) && FreshRequests(c, sent) &&
            (forall e :: e in sent ==> e.CancelOrder? || e.OrderRequest?)
  {
    var m := c.maker.(position := EventLoops.PE.TotalPosition(c.pnl.stats));
    QuoteEvents(m, env.top, env.elapsed);
    TrendEvents(c.momentum, price);
    hide MM.OnBook, MO.OnPrice;
  }

  lemma {:induction false} NothingLive(es: seq<Event>, id: nat)
    requires forall e :: e in es ==> e.CancelOrder? || e.OrderRequest?
    ensures Total(Live(id), es) == 0.0
  {
    if es != [] {
      assert es[|es| - 1] in es;
      NothingLive(es[..|es| - 1], id);
    }
  }

  // One step, seen from one id

  ghost predicate StillGood(c: System, c': System) {
    && IdsOk(c') && c'.maker.nextId <= MO.FIRST_ID
    && c.maker.nextId <= c'.maker.nextId && c.momentum.nextId <= c'.momentum.nextId
  }

  lemma ReactIds(c: System, e: Event, env: Env)
    requires IdsOk(c) && React(c, e, env).0.maker.nextId <= MO.FIRST_ID
    ensures var (c', out) := React(c, e, env);
            StillGood(c, c') && FreshRequests(c, out) &&
            (CancelsIssued(c, [e]) ==> CancelsIssued(c, out))
  {
    match e
    case MarketData(t) =>
      TickSendsFresh(c, t.price, env);
      TickRequests(c, t.price, env, 0);
      hide StrategiesOnTick, EX.OnTick;
      var fills := EX.OnTick(c.exchange, t.price).1;
      FillsAreFilled(c.exchange, t.price);
    case OrderRequest(_) =>
    case ValidatedOrder(_) =>
    case CancelOrder(id) =>
      assert e in [e] && CancelsId(e, id);
    case ExecutionReport(_) =>
      hide EventLoops.PE.Mark, EventLoops.PE.OnFill;
  }

  lemma FillsAreFilled(x: EX.Exchange, price: real)
    ensures forall e :: e in EX.AsEvents(EX.OnTick(x, price).1) ==> e.ExecutionReport? && e.report.status.Filled?
  {
  }

  /** What one event does to the life of an id. */
  ghost predicate LifeMoves(e: Event, l: Life, l': Life, id: nat) {
    match e
    case MarketData(_) =>
      l' == l.(requested := l.requested + When(l'.issued && !l.issued, 1.0), issued := l'.issued) &&
      (l.issued ==> l'.issued)
    case OrderRequest(o) =>
      if o.id != id then l' == l
      else l' == l.(requested := l.requested - 1.0) ||
           l' == l.(requested := l.requested - 1.0, live := l.live + 1.0, active := true)
    case ExecutionReport(r) =>
      if r.orderId != id then l' == l
      else if r.status.Cancelled? then l' == l.(cancelled := true, active := false)
      else if Terminal(r.status) then l' == l.(live := l.live - 1.0, ended := l.ended + 1.0, active := false)
      else l' == l
    case _ => l' == l
  }

  /** The life of an id when the event is handled, before failed pushes. */
  ghost function LifeAfter(c: System, e: Event, env: Env, id: nat, l: Life): Life {
    var c' := React(c, e, env).0;
    Life(l.requested + Gain(Requested(id), c, e, env), l.live + Gain(Live(id), c, e, env),
         Ended(c'.log.reports, id), id in CancelledIn(c'.log.reports), id in c'.active, Issued(c', id))
  }

  ghost predicate LifeMatches(c: System, id: nat, l: Life) {
    && l.ended == Ended(c.log.reports, id) && l.cancelled == (id in CancelledIn(c.log.reports))
    && l.active == (id in c.active) && l.issued == Issued(c, id)
  }

  lemma LifeAfterEvent(c: System, e: Event, env: Env, id: nat, l: Life)
    requires IdsOk(c) && React(c, e, env).0.maker.nextId <= MO.FIRST_ID && LifeMatches(c, id, l)
    ensures LifeMoves(e, l, LifeAfter(c, e, env, id, l), id)
  {
    match e
    case MarketData(t) =>
      TickMovesLife(c, t, env, id);
      hide ReactToTick, Gain, Ended, CancelledIn, Issued;
    case OrderRequest(o) => RequestMovesLife(c, o, env, id, l);
    case ValidatedOrder(o) =>
      GainOfOrder(Requested(id), c, o, env);
      GainOfOrder(Live(id), c, o, env);
      hide EX.Process, Ended, CancelledIn, Gain;
    case CancelOrder(i) =>
      GainOfCancel(Requested(id), c, i, env);
      GainOfCancel(Live(id), c, i, env);
      hide Ended, CancelledIn, Gain;
    case ExecutionReport(r) => ReportMovesLife(c, r, env, id, l);
  }

  lemma RequestMovesLife(c: System, o: Order, env: Env, id: nat, l: Life)
    requires LifeMatches(c, id, l)
    ensures LifeMoves(OrderRequest(o), l, LifeAfter(c, OrderRequest(o), env, id, l), id)
  {
    GainOfRequest(Requested(id), c, o, env);
    GainOfRequest(Live(id), c, o, env);
    hide Gain, Ended, CancelledIn, OM.Validates;
  }

  lemma ReportMovesLife(c: System, r: Report, env: Env, id: nat, l: Life)
    requires LifeMatches(c, id, l)
    ensures var e := ExecutionReport(r); LifeMoves(e, l, LifeAfter(c, e, env, id, l), id)
  {
    GainOfReport(Requested(id), c, r, env);
    GainOfReport(Live(id), c, r, env);
    hide EventLoops.PE.Mark, EventLoops.PE.OnFill, Gain;
    ReportsGrow(c.log.reports, r, id);
    hide Ended, CancelledIn;
  }

  lemma ReportsGrow(rs: seq<Report>, r: Report, id: nat)
    ensures Ended(rs + [r], id) == Ended(rs, id) + ReportValue(Live(id), r)
    ensures id in CancelledIn(rs + [r]) <==> id in CancelledIn(rs) || (r.status.Cancelled? && r.orderId == id)
  {
    assert (rs + [r])[..|rs|] == rs;
  }

  lemma TickMovesLife(c: System, t: Tick, env: Env, id: nat)
    requires IdsOk(c) && React(c, MarketData(t), env).0.maker.nextId <= MO.FIRST_ID
    ensures var c' := React(c, MarketData(t), env).0;
            Gain(Requested(id), c, MarketData(t), env) == When(Issued(c', id) && !Issued(c, id), 1.0) &&
            Gain(Live(id), c, MarketData(t), env) == 0.0 && (Issued(c, id) ==> Issued(c', id)) &&
            c'.active == c.active && c'.log == c.log
  {
    GainOfTick(Requested(id), c, t, env);
    GainOfTick(Live(id), c, t, env);
    TickRequests(c, t.price, env, id);
    TickSendsFresh(c, t.price, env);
    hide StrategiesOnTick, EX.OnTick;
    NothingLive(StrategiesOnTick(c, t.price, env).2, id);
  }

  /** What the head of the queue says about the sums. */
  lemma HeadCounts(m: Measure, s: Loop)
    requires Basic(s) && s.batch != []
    ensures Sum(m, s) >= Value(m, s.batch[0])
  {
    var es := Underway(s);
    TotalHead(m, es);
    assert forall e :: e in es[1..] ==> e in es;
    SizedNonNegative(m, es[1..]);
    TotalNonNegative(m, es[1..]);
    RestNonNegative(m, s.sys.exchange.resting);
  }

  /** The cancellation at the head of the queue is for no request behind it. */
  lemma {:induction false} NoRequestBehind(es: seq<Event>, id: nat)
    requires forall j :: 0 <= j < |es| && es[j].OrderRequest? ==> es[j].order.id != id
    ensures Total(Requested(id), es) == 0.0
  {
    if es != [] {
      NoRequestBehind(es[..|es| - 1], id);
    }
  }

  lemma {:induction false} RestRequestsNothing(rs: seq<Order>, id: nat)
    ensures RestTotal(Requested(id), rs) == 0.0
  {
    if rs != [] {
      RestRequestsNothing(rs[..|rs| - 1], id);
    }
  }

  lemma CancelledIsNotRequested(s: Loop, id: nat)
    requires s.batch != [] && CancelsId(s.batch[0], id) && Ordered(Underway(s))
    ensures Sum(Requested(id), s) == 0.0
  {
    var es := Underway(s)[1..];
    forall j | 0 <= j < |es| && es[j].OrderRequest? ensures es[j].order.id != id {
      assert es[j] == Underway(s)[j + 1];
      assert Underway(s)[0] == s.batch[0];
    }
    NoRequestBehind(es, id);
    TotalHead(Requested(id), Underway(s));
    RestRequestsNothing(s.sys.exchange.resting, id);
  }

  /** The life of one id after a step that loses no event. */
  lemma LifeStep(s: Loop, env: Env, id: nat)
    requires Basic(s) && IdsOk(s.sys)
    requires Step(s, env).queue.failed == s.queue.failed && Step(s, env).sys.maker.nextId <= MO.FIRST_ID
    ensures var l, l' := LifeOf(s, id), LifeOf(Step(s, env), id);
            if s.batch == [] then l' == l else LifeMoves(s.batch[0], l, l', id)
  {
    hide LifeOk, React, AfterPushes, PopUpTo, Gain, Sum, Basic, IdsOk, LifeMoves, Ended, CancelledIn, Issued;
    StepKeepsBasic(s, env);
    StepEffect(Requested(id), s, env);
    StepEffect(Live(id), s, env);
    if s.batch != [] {
      var e, l := s.batch[0], LifeOf(s, id);
      LifeAfterEvent(s.sys, e, env, id, l);
      assert LifeOf(Step(s, env), id) == LifeAfter(s.sys, e, env, id, l);
    }
  }

  /** What the event about to be handled says about the life of an id. */
  ghost predicate HeadMatches(e: Event, l: Life, id: nat) {
    && (e.OrderRequest? && e.order.id == id ==> l.requested >= 1.0)
    && (EndsId(e, id) ==> l.live >= 1.0)
    && (CancelsId(e, id) ==> l.requested == 0.0 && l.issued)
  }

  lemma HeadOfBatch(s: Loop, id: nat)
    requires Basic(s) && Ordered(Underway(s)) && CancelsIssued(s.sys, Underway(s)) && s.batch != []
    ensures HeadMatches(s.batch[0], LifeOf(s, id), id)
  {
    var e := s.batch[0];
    HeadCounts(Requested(id), s);
    HeadCounts(Live(id), s);
    assert e in Underway(s);
    hide Sum, Underway;
    if CancelsId(e, id) {
      CancelledIsNotRequested(s, id);
    }
  }

  lemma MovedLifeIsOk(e: Event, l: Life, l': Life, id: nat)
    requires LifeOk(l) && LifeMoves(e, l, l', id) && HeadMatches(e, l, id)
    ensures LifeOk(l')
  {
  }

  lemma LifeInvStep(s: Loop, env: Env)
    requires LifeInv(s) && Step(s, env).queue.failed == s.queue.failed && Step(s, env).sys.maker.nextId <= MO.FIRST_ID
    ensures LifeInv(Step(s, env))
  {
    StepKeepsBasic(s, env);
    StepKeepsOrder(s, env);
    hide Step, Basic, IdsOk, Ordered, CancelsIssued, LifeOf, LifeOk, LifeMoves, HeadMatches;
    forall id ensures LifeOk(LifeOf(Step(s, env), id)) {
      LifeStep(s, env, id);
      if s.batch != [] {
        HeadOfBatch(s, id);
        MovedLifeIsOk(s.batch[0], LifeOf(s, id), LifeOf(Step(s, env), id), id);
      }
    }
  }

  lemma StepKeepsOrder(s: Loop, env: Env)
    requires IdsOk(s.sys) && Ordered(Underway(s)) && CancelsIssued(s.sys, Underway(s))
    requires Step(s, env).sys.maker.nextId <= MO.FIRST_ID
    ensures var s' := Step(s, env); IdsOk(s'.sys) && Ordered(Underway(s')) && CancelsIssued(s'.sys, Underway(s'))
  {
    var es := Underway(s);
    hide React, AfterPushes, PopUpTo;
    if s.batch == [] {
      FillExtends(s);
      ExtendsOrdered(s.sys, es, Underway(Step(s, env)), []);
    } else {
      HandleExtends(s, env);
      assert forall x :: x in es[1..] ==> x in es;
      assert forall i :: 0 <= i < |es[1..]| ==> es[1..][i] == es[i + 1];
      assert CancelsIssued(s.sys, [s.batch[0]]) by {
        assert s.batch[0] in es;
      }
      ReactIds(s.sys, s.batch[0], env);
      ExtendsOrdered(s.sys, es[1..], Underway(Step(s, env)), Sent(s, env));
    }
  }

  // Whole runs

  /** What a run has to be like: nothing was dropped and the id ranges have not met. */
  predicate CleanRun(s: Loop) {
    s.queue.failed == 0 && s.sys.maker.nextId <= MO.FIRST_ID
  }

  lemma StepIsMonotone(s: Loop, env: Env)
    ensures Step(s, env).queue.failed >= s.queue.failed
    ensures Step(s, env).sys.maker.nextId >= s.sys.maker.nextId
  {
    StepMembers(s, env);
    if s.batch != [] {
      match s.batch[0]
      case MarketData(t) =>
        QuoteEvents(s.sys.maker.(position := EventLoops.PE.TotalPosition(s.sys.pnl.stats)), env.top, env.elapsed);
        hide MM.OnBook, MO.OnPrice, EX.OnTick, AfterPushes;
      case _ =>
        hide EventLoops.PE.Mark, EventLoops.PE.OnFill, EX.Process, AfterPushes;
    }
  }

  lemma {:induction false} RunKeepsLife(capacity: nat, feed: seq<seq<Tick>>, maxPosition: real, envs: seq<Env>)
    requires CleanRun(Run(Start(capacity, feed, maxPosition), envs))
    ensures LifeInv(Run(Start(capacity, feed, maxPosition), envs))
  {
    if envs != [] {
      var s := Run(Start(capacity, feed, maxPosition), envs[..|envs| - 1]);
      StepIsMonotone(s, envs[|envs| - 1]);
      hide Step, LifeInv;
      RunKeepsLife(capacity, feed, maxPosition, envs[..|envs| - 1]);
      LifeInvStep(s, envs[|envs| - 1]);
    }
  }

  // The three places an accepted order can be; an event is queued until it is handled, also while
  // it waits in the batch

  predicate QueuedValidated(s: Loop, id: nat) {
    exists e :: e in Underway(s) && e.ValidatedOrder? && e.order.id == id
  }

  predicate Resting(s: Loop, id: nat) {
    exists o :: o in s.sys.exchange.resting && o.id == id
  }

  /** A fill or a rejection is on its way back. */
  predicate QueuedEnd(s: Loop, id: nat) {
    exists e :: e in Underway(s) && EndsId(e, id)
  }

  lemma {:induction false} LiveInQueue(es: seq<Event>, id: nat)
    ensures Total(Live(id), es) >= 0.0
    ensures Total(Live(id), es) > 0.0 <==> exists e :: e in es && Value(Live(id), e) == 1.0
    ensures Total(Live(id), es) > 0.0 ==> Total(Live(id), es) >= 1.0
  {
    if es != [] {
      var n := |es| - 1;
      LiveInQueue(es[..n], id);
      assert es == es[..n] + [es[n]];
      if Total(Live(id), es[..n]) > 0.0 {
        var e :| e in es[..n] && Value(Live(id), e) == 1.0;
        assert e in es;
      }
    }
  }

  lemma {:induction false} LiveInRest(rs: seq<Order>, id: nat)
    ensures RestTotal(Live(id), rs) >= 0.0
    ensures RestTotal(Live(id), rs) > 0.0 <==> exists o :: o in rs && o.id == id
    ensures RestTotal(Live(id), rs) > 0.0 ==> RestTotal(Live(id), rs) >= 1.0
  {
    if rs != [] {
      var n := |rs| - 1;
      LiveInRest(rs[..n], id);
      assert rs == rs[..n] + [rs[n]];
      if RestTotal(Live(id), rs[..n]) > 0.0 {
        var o :| o in rs[..n] && o.id == id;
        assert o in rs;
      }
    }
  }

  lemma {:induction false} TwoInQueue(es: seq<Event>, a: Event, b: Event, id: nat)
    requires a in es && b in es && a != b && Value(Live(id), a) == 1.0 == Value(Live(id), b)
    ensures Total(Live(id), es) >= 2.0
  {
    var n := |es| - 1;
    LiveInQueue(es[..n], id);
    if a in es[..n] && b in es[..n] {
      TwoInQueue(es[..n], a, b, id);
    } else {
      assert es == es[..n] + [es[n]];
    }
  }

  /** The lifecycle theorem: an order is active exactly when it is queued for the exchange, or
      resting there, or its end is queued, and its cancellation has not been reported; and it is
      never in two of these places. */
  lemma ActiveOrdersAreLive(capacity: nat, feed: seq<seq<Tick>>, maxPosition: real, envs: seq<Env>, id: nat)
    requires CleanRun(Run(Start(capacity, feed, maxPosition), envs))
    ensures var s := Run(Start(capacity, feed, maxPosition), envs);
            (id in s.sys.active <==>
               (QueuedValidated(s, id) || Resting(s, id) || QueuedEnd(s, id)) &&
               id !in CancelledIn(s.sys.log.reports)) &&
            !(QueuedValidated(s, id) && Resting(s, id)) &&
            !(QueuedValidated(s, id) && QueuedEnd(s, id)) &&
            !(Resting(s, id) && QueuedEnd(s, id))
  {
    var s := Run(Start(capacity, feed, maxPosition), envs);
    RunKeepsLife(capacity, feed, maxPosition, envs);
    assert LifeOk(LifeOf(s, id));
    LivePlaces(s, id);
  }

  /** No order ends twice: at most one fill or rejection of an id is ever handled, and none while
      the order is still requested, queued, resting or on its way back. */
  lemma OrdersEndOnce(capacity: nat, feed: seq<seq<Tick>>, maxPosition: real, envs: seq<Env>, id: nat)
    requires CleanRun(Run(Start(capacity, feed, maxPosition), envs))
    ensures var s := Run(Start(capacity, feed, maxPosition), envs);
            Ended(s.sys.log.reports, id) <= 1.0 &&
            (QueuedValidated(s, id) || Resting(s, id) || QueuedEnd(s, id) ==> Ended(s.sys.log.reports, id) == 0.0)
  {
    var s := Run(Start(capacity, feed, maxPosition), envs);
    RunKeepsLife(capacity, feed, maxPosition, envs);
    assert LifeOk(LifeOf(s, id));
    LivePlaces(s, id);
  }

  lemma LivePlaces(s: Loop, id: nat)
    requires Sum(Live(id), s) <= 1.0
    ensures Sum(Live(id), s) >= 1.0 <==> QueuedValidated(s, id) || Resting(s, id) || QueuedEnd(s, id)
    ensures !(QueuedValidated(s, id) && Resting(s, id))
    ensures !(QueuedValidated(s, id) && QueuedEnd(s, id))
    ensures !(Resting(s, id) && QueuedEnd(s, id))
  {
    var items := Underway(s);
    LiveInQueue(items, id);
    LiveInRest(s.sys.exchange.resting, id);
    assert forall e :: Value(Live(id), e) == 1.0 <==>
      (e.ValidatedOrder? && e.order.id == id) ||
      EndsId(e, id);
    if QueuedValidated(s, id) && QueuedEnd(s, id) {
      var a :| a in items && a.ValidatedOrder? && a.order.id == id;
      var b :| b in items && EndsId(b, id);
      TwoInQueue(items, a, b, id);
    }
    hide Value, Total, RestTotal;
  }

  /** When the queue has drained, what is active is what rests and was not reported cancelled. */
  lemma {:induction false} DrainedMeansResting(
      capacity: nat, feed: seq<seq<Tick>>, maxPosition: real, envs: seq<Env>, id: nat)
    requires CleanRun(Run(Start(capacity, feed, maxPosition), envs))
    requires Underway(Run(Start(capacity, feed, maxPosition), envs)) == []
    ensures var s := Run(Start(capacity, feed, maxPosition), envs);
            id in s.sys.active <==> Resting(s, id) && id !in CancelledIn(s.sys.log.reports)
  {
    ActiveOrdersAreLive(capacity, feed, maxPosition, envs, id);
  }

  /** Whatever the loop does, no order rests at the exchange that could trade there now. */
  lemma {:induction false} NothingMarketableRests(
      capacity: nat, feed: seq<seq<Tick>>, maxPosition: real, envs: seq<Env>)
    ensures EX.Uncrossed(Run(Start(capacity, feed, maxPosition), envs).sys.exchange)
  {
    if envs != [] {
      var n := |envs| - 1;
      NothingMarketableRests(capacity, feed, maxPosition, envs[..n]);
      var s := Run(Start(capacity, feed, maxPosition), envs[..n]);
      hide PopUpTo, AfterPushes, EX.Uncrossed;
      if s.batch != [] {
        ReactKeepsUncrossed(s.sys, s.batch[0], envs[n]);
      }
      hide React;
    }
  }

  lemma ReactKeepsUncrossed(c: System, e: Event, env: Env)
    requires EX.Uncrossed(c.exchange)
    ensures EX.Uncrossed(React(c, e, env).0.exchange)
  {
    hide EX.Uncrossed, EX.OnTick, EX.Process, EX.Cancel, StrategiesOnTick, EventLoops.PE.Mark, EventLoops.PE.OnFill;
    match e
    case MarketData(t) => EX.ApplyKeepsUncrossed(c.exchange, EX.PriceUpdate(t.price));
    case ValidatedOrder(o) => EX.ApplyKeepsUncrossed(c.exchange, EX.Submit(o));
    case CancelOrder(id) => EX.ApplyKeepsUncrossed(c.exchange, EX.CancelRequest(id));
    case _ =>
  }

  // As wired in main.cpp, where the book stays empty

  ghost predicate CancelsNothing(es: seq<Event>) {
    forall e, id :: e in es ==> !CancelsId(e, id)
  }

  ghost predicate MakerSilent(s: Loop) {
    && s.sys.maker.nextId == MM.FIRST_ID && s.sys.maker.active == []
    && CancelsNothing(Underway(s))
    && CancelledIn(s.sys.log.reports) == {}
  }

  lemma SilentTick(c: System, t: Tick, env: Env)
    requires env.top.None? && c.maker.active == []
    ensures var (c', out) := React(c, MarketData(t), env);
            c'.maker.nextId == c.maker.nextId && c'.maker.active == [] && CancelsNothing(out) && c'.log == c.log
  {
    TrendEvents(c.momentum, t.price);
    FillsAreFilled(c.exchange, t.price);
    hide MO.OnPrice, EX.OnTick;
  }

  lemma SilentReact(c: System, e: Event, env: Env)
    requires env.top.None? && c.maker.active == []
    requires !e.CancelOrder? && (e.ExecutionReport? ==> !e.report.status.Cancelled?)
    ensures var (c', out) := React(c, e, env);
            c'.maker.nextId == c.maker.nextId && c'.maker.active == [] && CancelsNothing(out) &&
            CancelledIn(c'.log.reports) == CancelledIn(c.log.reports)
  {
    match e
    case MarketData(t) =>
      SilentTick(c, t, env);
      hide ReactToTick, CancelledIn, CancelsNothing;
    case OrderRequest(_) =>
      hide CancelledIn, OM.Validates;
    case ValidatedOrder(_) =>
      hide CancelledIn;
    case ExecutionReport(r) =>
      hide EventLoops.PE.Mark, EventLoops.PE.OnFill;
      assert (c.log.reports + [r])[..|c.log.reports|] == c.log.reports;
  }

  lemma {:induction false} EmptyBookSilencesMaker(
      capacity: nat, feed: seq<seq<Tick>>, maxPosition: real, envs: seq<Env>)
    requires forall i :: 0 <= i < |envs| ==> envs[i].top.None?
    ensures MakerSilent(Run(Start(capacity, feed, maxPosition), envs))
  {
    if envs != [] {
      var n := |envs| - 1;
      EmptyBookSilencesMaker(capacity, feed, maxPosition, envs[..n]);
      var s := Run(Start(capacity, feed, maxPosition), envs[..n]);
      SilentStep(s, envs[n]);
      hide Step, MakerSilent;
    }
  }

  lemma SilentStep(s: Loop, env: Env)
    requires MakerSilent(s) && env.top.None?
    ensures MakerSilent(Step(s, env))
  {
    StepMembers(s, env);
    hide React, AfterPushes, PopUpTo;
    if s.batch != [] {
      var e := s.batch[0];
      assert e in Underway(s);
      assert e.CancelOrder? ==> CancelsId(e, e.id);
      assert e.ExecutionReport? && e.report.status.Cancelled? ==> CancelsId(e, e.report.orderId);
      SilentReact(s.sys, e, env);
    }
  }

  /** With an empty book nothing is ever cancelled, so in a run without drops the three places
      are the active set, and a drained queue means active = resting. */
  lemma {:induction false} AsWiredActiveIsLive(
      capacity: nat, feed: seq<seq<Tick>>, maxPosition: real, envs: seq<Env>, id: nat)
    requires forall i :: 0 <= i < |envs| ==> envs[i].top.None?
    requires Run(Start(capacity, feed, maxPosition), envs).queue.failed == 0
    ensures var s := Run(Start(capacity, feed, maxPosition), envs);
            (id in s.sys.active <==> QueuedValidated(s, id) || Resting(s, id) || QueuedEnd(s, id)) &&
            (Underway(s) == [] ==> (id in s.sys.active <==> Resting(s, id)))
  {
    EmptyBookSilencesMaker(capacity, feed, maxPosition, envs);
    ActiveOrdersAreLive(capacity, feed, maxPosition, envs, id);
  }
}
