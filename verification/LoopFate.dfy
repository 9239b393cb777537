/**
 The fate of an order in the running system. Without drops the reports on their way and the
 reports handled are, in order, exactly what the exchange answers to the events handled, and no
 order reaches the exchange twice. So whatever the strategies, the order manager, cancellations
 and other orders do in between, a limit order that reaches the exchange fills when, and only
 when, its side, its limit and the prices handled say.
 */
module LoopFate {
  import opened Events
  import opened EventQueues
  import opened EventLoops
  import opened LoopSteps
  import opened LoopMeasures
  import opened LoopDrains
  import opened LoopLifecycle
  import LoopRisk
  import EX = MatchingEngines
  import MO = Momentums

  // The exchange's share of a run

  /** What the exchange is given when `e` is handled. */
  function InputOf(e: Event): seq<EX.Input> {
    match e
    case MarketData(t) => [EX.PriceUpdate(t.price)]
    case ValidatedOrder(o) => [EX.Submit(o)]
    case CancelOrder(id) => [EX.CancelRequest(id)]
    case _ => []
  }

  function InputsOf(es: seq<Event>): seq<EX.Input> {
    if es == [] then [] else InputsOf(es[..|es| - 1]) + InputOf(es[|es| - 1])
  }

  function ReportIn(e: Event): seq<Report> {
    if e.ExecutionReport? then [e.report] else []
  }

  function ReportsOf(es: seq<Event>): seq<Report> {
    if es == [] then [] else ReportsOf(es[..|es| - 1]) + ReportIn(es[|es| - 1])
  }

  lemma {:induction false} ReportsAppend(a: seq<Event>, b: seq<Event>)
    ensures ReportsOf(a + b) == ReportsOf(a) + ReportsOf(b)
  {
    hide ReportIn;
    if b == [] {
      assert a + b == a;
      assert ReportsOf(a) + [] == ReportsOf(a);
    } else {
      var n := |b| - 1;
      assert (a + b)[..|a + b| - 1] == a + b[..n] && (a + b)[|a + b| - 1] == b[n];
      ReportsAppend(a, b[..n]);
      assert ReportsOf(a + b) == ReportsOf(a + b[..n]) + ReportIn(b[n]);
      assert ReportsOf(b) == ReportsOf(b[..n]) + ReportIn(b[n]);
      hide ReportsOf;
      Associate(ReportsOf(a), ReportsOf(b[..n]), ReportIn(b[n]));
    }
  }

  lemma {:induction false} InputsAppend(a: seq<Event>, b: seq<Event>)
    ensures InputsOf(a + b) == InputsOf(a) + InputsOf(b)
  {
    hide InputOf;
    if b == [] {
      assert a + b == a;
      assert InputsOf(a) + [] == InputsOf(a);
    } else {
      var n := |b| - 1;
      assert (a + b)[..|a + b| - 1] == a + b[..n] && (a + b)[|a + b| - 1] == b[n];
      InputsAppend(a, b[..n]);
      assert InputsOf(a + b) == InputsOf(a + b[..n]) + InputOf(b[n]);
      assert InputsOf(b) == InputsOf(b[..n]) + InputOf(b[n]);
      hide InputsOf;
      Associate(InputsOf(a), InputsOf(b[..n]), InputOf(b[n]));
    }
  }

  lemma InputsOfOne(e: Event)
    ensures InputsOf([e]) == InputOf(e)
  {
    assert [e][..0] == [];
  }

  lemma {:induction false} NoReports(es: seq<Event>)
    requires forall e :: e in es ==> !e.ExecutionReport?
    ensures ReportsOf(es) == []
  {
    if es != [] {
      assert es[|es| - 1] in es;
      NoReports(es[..|es| - 1]);
    }
  }

  lemma {:induction false} ReportsOfReports(rs: seq<Report>)
    ensures ReportsOf(EX.AsEvents(rs)) == rs
  {
    if rs != [] {
      var n := |rs| - 1;
      assert EX.AsEvents(rs)[..n] == EX.AsEvents(rs[..n]);
      ReportsOfReports(rs[..n]);
      assert rs == rs[..n] + [rs[n]];
    }
  }

  lemma ReportsOfOne(e: Event)
    ensures ReportsOf([e]) == ReportIn(e)
  {
    assert [e][..0] == [];
  }

  lemma {:induction false} ExchangeRunAppend(x: EX.Exchange, a: seq<EX.Input>, b: seq<EX.Input>)
    ensures var (x1, r1) := EX.Run(x, a); var (x2, r2) := EX.Run(x1, b); EX.Run(x, a + b) == (x2, r1 + r2)
    decreases |a|
  {
    hide EX.Apply;
    if a == [] {
      assert a + b == b;
      assert [] + EX.Run(x, b).1 == EX.Run(x, b).1;
    } else {
      var (x1, r1) := EX.Apply(x, a[0]);
      assert (a + b)[1..] == a[1..] + b;
      ExchangeRunAppend(x1, a[1..], b);
      var (x2, r2) := EX.Run(x1, a[1..]);
      Associate(r1, r2, EX.Run(x2, b).1);
    }
  }

  lemma ExchangeRunOne(x: EX.Exchange, i: EX.Input)
    ensures EX.Run(x, [i]) == EX.Apply(x, i)
  {
    hide EX.Apply;
    assert [i][1..] == [];
    assert EX.Apply(x, i).1 + [] == EX.Apply(x, i).1;
  }

  /** Handling an event moves the exchange, and sends its reports, as a run on its input would. */
  lemma ReactOnExchange(c: System, e: Event, env: Env)
    ensures var (c', out) := React(c, e, env);
            EX.Run(c.exchange, InputOf(e)) == (c'.exchange, ReportsOf(out)) &&
            c'.log.reports == c.log.reports + ReportIn(e)
  {
    match e
    case MarketData(t) =>
      TickOnExchange(c, t, env);
    case OrderRequest(o) =>
      NoReports(React(c, e, env).1);
    case ValidatedOrder(o) =>
      ExchangeRunOne(c.exchange, EX.Submit(o));
      ReportsOfOne(ExecutionReport(EX.Process(c.exchange, o).1));
      hide EX.Process, EX.Run;
    case CancelOrder(id) =>
      ExchangeRunOne(c.exchange, EX.CancelRequest(id));
      ReportsOfOne(ExecutionReport(EX.Cancel(c.exchange, id).1));
      hide EX.Cancel, EX.Run;
    case ExecutionReport(r) =>
      hide EventLoops.PE.Mark, EventLoops.PE.OnFill;
  }

  lemma TickOnExchange(c: System, t: Tick, env: Env)
    ensures var (c', out) := React(c, MarketData(t), env);
            EX.Run(c.exchange, [EX.PriceUpdate(t.price)]) == (c'.exchange, ReportsOf(out)) &&
            c'.log.reports == c.log.reports
  {
    var sent, fills := StrategiesOnTick(c, t.price, env).2, EX.OnTick(c.exchange, t.price).1;
    hide StrategiesOnTick, EX.OnTick, EX.Run;
    ExchangeRunOne(c.exchange, EX.PriceUpdate(t.price));
    LoopRisk.StrategiesSend(c, t.price, env);
    NoReports(sent);
    ReportsOfReports(fills);
    ReportsAppend(sent, EX.AsEvents(fills));
    assert [] + fills == fills;
  }

  // Reports under way

  lemma ExtendsReports(before: seq<Event>, after: seq<Event>)
    requires Extends(before, after, [])
    ensures ReportsOf(after) == ReportsOf(before)
  {
    assert after == before + after[|before|..];
    NoReports(after[|before|..]);
    ReportsAppend(before, after[|before|..]);
  }

  lemma {:induction false} PushesReports(q: Queue, es: seq<Event>)
    requires AfterPushes(q, es).failed == q.failed
    ensures ReportsOf(AfterPushes(q, es).items) == ReportsOf(q.items) + ReportsOf(es)
  {
    if es != [] {
      var n := |es| - 1;
      var q1 := AfterPushes(q, es[..n]);
      PushesExtend(q, es[..n]);
      PushExtends(q1, es[n]);
      hide AfterPush, Extends;
      PushesReports(q, es[..n]);
      PushReports(q1, es[n]);
      assert ReportsOf(es) == ReportsOf(es[..n]) + ReportIn(es[n]);
      hide ReportsOf;
      Associate(ReportsOf(q.items), ReportsOf(es[..n]), ReportIn(es[n]));
    } else {
      assert ReportsOf(q.items) + [] == ReportsOf(q.items);
    }
  }

  lemma PushReports(q: Queue, e: Event)
    requires AfterPush(q, e).failed == q.failed
    ensures ReportsOf(AfterPush(q, e).items) == ReportsOf(q.items) + ReportIn(e)
  {
    ArriveExtends(q);
    hide Arrive, ReportsOf, Extends;
    ExtendsReports(q.items, Arrive(q).items);
    ReportsAppend(Arrive(q).items, [e]);
    ReportsOfOne(e);
  }

  /** Everything the exchange reported has been handled or is under way, in the order in which it
      was reported. */
  ghost predicate Accounted(s: Loop) {
    && EX.Run(EX.NEW_EXCHANGE, InputsOf(s.handled)) == (s.sys.exchange, ReportsOf(s.handled) + ReportsOf(Underway(s)))
    && s.sys.log.reports == ReportsOf(s.handled)
  }

  lemma AccountedStep(s: Loop, env: Env)
    requires Accounted(s) && Step(s, env).queue.failed == s.queue.failed
    ensures Accounted(Step(s, env))
  {
    hide React, AfterPushes, PopUpTo, EX.Run;
    if s.batch == [] {
      FillExtends(s);
      ExtendsReports(Underway(s), Underway(Step(s, env)));
    } else {
      AccountedHandle(s, env);
    }
  }

  /** The reports under way when the next event is handled. */
  lemma ReportsMove(s: Loop, env: Env)
    requires s.batch != [] && Step(s, env).queue.failed == s.queue.failed
    ensures var rest := ReportsOf(s.batch[1..] + s.queue.items);
            ReportsOf(Underway(s)) == ReportIn(s.batch[0]) + rest &&
            ReportsOf(Underway(Step(s, env))) == rest + ReportsOf(Sent(s, env))
  {
    hide React, AfterPushes, ReportsOf;
    var e, rest, s' := s.batch[0], s.batch[1..], Step(s, env);
    PushesReports(s.queue, Sent(s, env));
    assert Underway(s) == [e] + (rest + s.queue.items);
    ReportsOfOne(e);
    ReportsAppend([e], rest + s.queue.items);
    ReportsAppend(rest, s.queue.items);
    ReportsAppend(rest, s'.queue.items);
    hide Step;
    Associate(ReportsOf(rest), ReportsOf(s.queue.items), ReportsOf(Sent(s, env)));
  }

  lemma AccountedHandle(s: Loop, env: Env)
    requires s.batch != [] && Accounted(s) && Step(s, env).queue.failed == s.queue.failed
    ensures Accounted(Step(s, env))
  {
    hide React, AfterPushes, EX.Run, Underway;
    var e := s.batch[0];
    ReactOnExchange(s.sys, e, env);
    ReportsMove(s, env);
    assert (s.handled + [e])[..|s.handled|] == s.handled;
    ExchangeRunAppend(EX.NEW_EXCHANGE, InputsOf(s.handled), InputOf(e));
    var rest := ReportsOf(s.batch[1..] + s.queue.items);
    var before, sent := ReportsOf(s.handled), ReportsOf(Sent(s, env));
    assert ReportsOf(s.handled + [e]) == before + ReportIn(e);
    assert InputsOf(s.handled + [e]) == InputsOf(s.handled) + InputOf(e);
    hide InputsOf, ReportsOf, ReportIn, InputOf;
    Regroup(before, ReportIn(e), rest, sent);
  }

  lemma Regroup<T>(a: seq<T>, b: seq<T>, c: seq<T>, d: seq<T>)
    ensures a + (b + c) + d == (a + b) + (c + d)
  {
  }

  // No order reaches the exchange twice

  /** How often an order with this id was handed to the exchange. */
  function Submissions(es: seq<Event>, id: nat): real {
    if es == [] then 0.0 else Submissions(es[..|es| - 1], id) + SubmissionIn(es[|es| - 1], id)
  }

  function SubmissionIn(e: Event, id: nat): real {
    When(e.ValidatedOrder? && e.order.id == id, 1.0)
  }

  ghost predicate SentOnce(s: Loop, id: nat) {
    Sum(Unsent(id), s) + Submissions(s.handled, id) <= When(Issued(s.sys, id), 1.0)
  }

  lemma {:induction false} UnsentIsRequested(es: seq<Event>, id: nat)
    requires forall e :: e in es ==> e.CancelOrder? || e.OrderRequest?
    ensures Total(Unsent(id), es) == Total(Requested(id), es)
  {
    if es != [] {
      assert es[|es| - 1] in es;
      UnsentIsRequested(es[..|es| - 1], id);
    }
  }

  lemma UnsentGain(c: System, e: Event, env: Env, id: nat)
    requires IdsOk(c) && React(c, e, env).0.maker.nextId <= MO.FIRST_ID
    ensures Gain(Unsent(id), c, e, env) + SubmissionIn(e, id) <=
            When(Issued(React(c, e, env).0, id), 1.0) - When(Issued(c, id), 1.0)
  {
    match e
    case MarketData(t) =>
      GainOfTick(Unsent(id), c, t, env);
      GainOfTick(Requested(id), c, t, env);
      TickMovesLife(c, t, env, id);
      LoopRisk.StrategiesSend(c, t.price, env);
      UnsentIsRequested(StrategiesOnTick(c, t.price, env).2, id);
      hide ReactToTick, StrategiesOnTick, Gain, Issued;
    case OrderRequest(o) =>
      GainOfRequest(Unsent(id), c, o, env);
      hide Gain;
    case ValidatedOrder(o) =>
      GainOfOrder(Unsent(id), c, o, env);
      hide Gain, EX.Process;
    case CancelOrder(i) =>
      GainOfCancel(Unsent(id), c, i, env);
      hide Gain;
    case ExecutionReport(r) =>
      GainOfReport(Unsent(id), c, r, env);
      hide Gain, EventLoops.PE.Mark, EventLoops.PE.OnFill;
  }

  lemma SentOnceStep(s: Loop, env: Env, id: nat)
    requires Basic(s) && IdsOk(s.sys) && SentOnce(s, id)
    requires Step(s, env).sys.maker.nextId <= MO.FIRST_ID
    ensures SentOnce(Step(s, env), id)
  {
    hide React, AfterPushes, PopUpTo, Gain, Sum, Basic, IdsOk, Issued;
    StepKeepsBasic(s, env);
    StepEffect(Unsent(id), s, env);
    if s.batch != [] {
      UnsentGain(s.sys, s.batch[0], env, id);
      assert (s.handled + [s.batch[0]])[..|s.handled|] == s.handled;
    }
  }

  lemma {:induction false} RunIsAccounted(
      capacity: nat, feed: seq<seq<Tick>>, maxPosition: real, envs: seq<Env>, id: nat)
    requires CleanRun(Run(Start(capacity, feed, maxPosition), envs))
    ensures var s := Run(Start(capacity, feed, maxPosition), envs); Accounted(s) && SentOnce(s, id) && Basic(s)
  {
    if envs == [] {
      assert [] + [] == ReportsOf([]);
    } else {
      var n := |envs| - 1;
      var s := Run(Start(capacity, feed, maxPosition), envs[..n]);
      StepIsMonotone(s, envs[n]);
      hide Step, Basic, IdsOk, Accounted, SentOnce;
      RunIsAccounted(capacity, feed, maxPosition, envs[..n], id);
      RunKeepsLife(capacity, feed, maxPosition, envs[..n]);
      StepKeepsBasic(s, envs[n]);
      AccountedStep(s, envs[n]);
      SentOnceStep(s, envs[n], id);
    }
  }

  /** The reports handled and under way carry the trade ids 1, 2, 3, ... */
  lemma {:induction false} TradeIdsInRun(
      capacity: nat, feed: seq<seq<Tick>>, maxPosition: real, envs: seq<Env>, i: nat)
    requires CleanRun(Run(Start(capacity, feed, maxPosition), envs))
    requires var s := Run(Start(capacity, feed, maxPosition), envs);
             i < |ReportsOf(s.handled) + ReportsOf(Underway(s))|
    ensures var s := Run(Start(capacity, feed, maxPosition), envs);
            (ReportsOf(s.handled) + ReportsOf(Underway(s)))[i].tradeId == i + 1
  {
    var s := Run(Start(capacity, feed, maxPosition), envs);
    RunIsAccounted(capacity, feed, maxPosition, envs, 0);
    EX.TradeIdsAreConsecutive(EX.NEW_EXCHANGE, InputsOf(s.handled));
    hide Run, EX.Run, Basic, SentOnce;
  }

  // The fate of one order

  lemma {:induction false} SubmissionsCount(es: seq<Event>, id: nat, i: nat, j: nat)
    requires i < |es| && j < |es| && SubmissionIn(es[i], id) == 1.0
    requires i != j ==> SubmissionIn(es[j], id) == 1.0
    ensures Submissions(es, id) >= if i == j then 1.0 else 2.0
  {
    var n := |es| - 1;
    SubmissionsNonNegative(es[..n], id);
    if i < n {
      SubmissionsCount(es[..n], id, i, if j < n then j else i);
    } else if j < n {
      SubmissionsCount(es[..n], id, j, j);
    }
  }

  lemma {:induction false} SubmissionsNonNegative(es: seq<Event>, id: nat)
    ensures Submissions(es, id) >= 0.0
  {
    if es != [] {
      SubmissionsNonNegative(es[..|es| - 1], id);
    }
  }

  lemma {:induction false} InputsSubmit(es: seq<Event>, id: nat)
    requires forall k :: 0 <= k < |es| ==> SubmissionIn(es[k], id) != 1.0
    ensures EX.NotSubmitted(InputsOf(es), id)
  {
    if es != [] {
      InputsSubmit(es[..|es| - 1], id);
    }
  }

  /** What rests was submitted. */
  lemma {:induction false} RestingWasSubmitted(x: EX.Exchange, inputs: seq<EX.Input>, id: nat)
    requires EX.NotResting(x.resting, id) && EX.NotSubmitted(inputs, id)
    ensures EX.NotResting(EX.Run(x, inputs).0.resting, id)
    decreases |inputs|
  {
    if inputs != [] {
      var i := inputs[0];
      if i.PriceUpdate? {
        EX.SelectMembers(x.resting, i.price - EX.SPREAD / 2.0, i.price + EX.SPREAD / 2.0, false);
      }
      RestingWasSubmitted(EX.Apply(x, i).0, inputs[1..], id);
    }
  }

  lemma OthersAreNotIt(es: seq<Event>, i: nat, o: Order)
    requires i < |es| && es[i] == ValidatedOrder(o) && Submissions(es, o.id) <= 1.0
    ensures EX.NotSubmitted(InputsOf(es[..i]), o.id) && EX.NotSubmitted(InputsOf(es[i + 1..]), o.id)
  {
    forall j | 0 <= j < |es| && j != i ensures SubmissionIn(es[j], o.id) != 1.0 {
      if SubmissionIn(es[j], o.id) == 1.0 {
        SubmissionsCount(es, o.id, i, j);
      }
    }
    InputsSubmit(es[..i], o.id);
    InputsSubmit(es[i + 1..], o.id);
  }

  lemma InputsAround(es: seq<Event>, i: nat, o: Order)
    requires i < |es| && es[i] == ValidatedOrder(o)
    ensures InputsOf(es) == InputsOf(es[..i]) + ([EX.Submit(o)] + InputsOf(es[i + 1..]))
  {
    var before, it, after := es[..i], [es[i]], es[i + 1..];
    assert es == before + (it + after);
    InputsOfOne(es[i]);
    hide InputsOf;
    InputsAppend(before, it + after);
    InputsAppend(it, after);
  }

  /** The exchange's best prices after some events were handled. */
  function TouchAfter(es: seq<Event>): (real, real) {
    var x := EX.Run(EX.NEW_EXCHANGE, InputsOf(es)).0;
    (x.bestBid, x.bestAsk)
  }

  /** They are those of the last tick handled, and 0 before the first. */
  lemma {:induction false} TouchOfLastTick(es: seq<Event>)
    ensures TouchAfter(es) ==
            if es == [] then (0.0, 0.0)
            else
              var e := es[|es| - 1];
              if e.MarketData? then (e.tick.price - 0.25, e.tick.price + 0.25)
              else TouchAfter(es[..|es| - 1])
  {
    if es != [] {
      var n := |es| - 1;
      var x := EX.Run(EX.NEW_EXCHANGE, InputsOf(es[..n])).0;
      ExchangeRunAppend(EX.NEW_EXCHANGE, InputsOf(es[..n]), InputOf(es[n]));
      TouchOfOne(x, es[n]);
      hide EX.Run, InputOf;
    }
  }

  lemma TouchOfOne(x: EX.Exchange, e: Event)
    ensures var x' := EX.Run(x, InputOf(e)).0;
            (x'.bestBid, x'.bestAsk) ==
            if e.MarketData? then (e.tick.price - EX.SPREAD / 2.0, e.tick.price + EX.SPREAD / 2.0)
            else (x.bestBid, x.bestAsk)
  {
    if InputOf(e) != [] {
      ExchangeRunOne(x, InputOf(e)[0]);
    }
  }

  /** The prices of the ticks among the events handled. */
  function TickPrices(es: seq<Event>): seq<real> {
    EX.Prices(InputsOf(es))
  }

  /** In a run without drops, let a limit order be the i-th event handled. Of the fills handled so
      far and those on their way, its own are: one, for its whole quantity, if its side, its limit
      and the prices handled before and after it say that it trades, at the price they say; none
      otherwise. */
  lemma FateInRun(capacity: nat, feed: seq<seq<Tick>>, maxPosition: real, envs: seq<Env>, i: nat, o: Order)
    requires var s := Run(Start(capacity, feed, maxPosition), envs);
             CleanRun(s) && i < |s.handled| && s.handled[i] == ValidatedOrder(o) && o.kind.Limit?
    ensures var s := Run(Start(capacity, feed, maxPosition), envs);
            var (bid, ask) := TouchAfter(s.handled[..i]);
            EX.FillsAs(EX.FillsOf(s.sys.log.reports + ReportsOf(Underway(s)), o.id), o,
                       EX.Fate(o.side, o.price, bid, ask, TickPrices(s.handled[i + 1..])))
  {
    var s := Run(Start(capacity, feed, maxPosition), envs);
    RunIsAccounted(capacity, feed, maxPosition, envs, o.id);
    SumOfUnsent(s, o.id);
    hide Run;
    var es := s.handled;
    OthersAreNotIt(es, i, o);
    InputsAround(es, i, o);
    FateAround(InputsOf(es[..i]), o, InputsOf(es[i + 1..]));
  }

  lemma SumOfUnsent(s: Loop, id: nat)
    requires Basic(s) && SentOnce(s, id)
    ensures Submissions(s.handled, id) <= 1.0
  {
    SumNonNegative(Unsent(id), s);
  }

  lemma FateAround(before: seq<EX.Input>, o: Order, after: seq<EX.Input>)
    requires o.kind.Limit? && EX.NotSubmitted(before, o.id) && EX.NotSubmitted(after, o.id)
    ensures var x := EX.Run(EX.NEW_EXCHANGE, before).0;
            EX.FillsAs(EX.FillsOf(EX.Run(EX.NEW_EXCHANGE, before + ([EX.Submit(o)] + after)).1, o.id), o,
                       EX.Fate(o.side, o.price, x.bestBid, x.bestAsk, EX.Prices(after)))
  {
    hide EX.Run, EX.Fate, EX.FillsAs, EX.NotSubmitted;
    var (x, r1) := EX.Run(EX.NEW_EXCHANGE, before);
    var r2 := EX.Run(x, [EX.Submit(o)] + after).1;
    ExchangeRunAppend(EX.NEW_EXCHANGE, before, [EX.Submit(o)] + after);
    EX.AbsentNeverFills(EX.NEW_EXCHANGE, before, o.id);
    RestingWasSubmitted(EX.NEW_EXCHANGE, before, o.id);
    EX.LimitOrderFate(x, o, after);
    EX.FillsOfAppend(r1, r2, o.id);
    assert [] + EX.FillsOf(r2, o.id) == EX.FillsOf(r2, o.id);
  }
}
