/**
 The order table and the limit. Every entry of the table is the accepted order with that id; and once
 the position is far enough outside the limit with nothing left to fill, it stays there for ever.
 */
module LoopOrders {
  import opened Events
  import opened EventQueues
  import opened EventLoops
  import opened LoopSteps
  import opened LoopMeasures
  import opened LoopDrains
  import opened LoopLifecycle
  import opened LoopSafety
  import opened LoopHistory
  import opened LoopQuiet
  import opened LoopWiring
  import LoopRisk
  import LoopStaircase
  import MO = Momentums
  import EX = MatchingEngines
  import OM = OrderManagers
  import PE = PnLEngines

  // The table holds accepted orders

  ghost predicate TableOk(c: System) {
    forall id :: id in c.active ==> c.active[id].id == id && c.active[id] in c.log.accepted
  }

  lemma ReactKeepsTable(c: System, e: Event, env: Env)
    requires TableOk(c)
    ensures TableOk(React(c, e, env).0)
  {
    hide StrategiesOnTick, EX.OnTick, EX.Process, PE.Mark, PE.OnFill;
  }

  lemma {:induction false} TableOfRun(capacity: nat, feed: seq<seq<Tick>>, maxPosition: real, envs: seq<Env>)
    ensures TableOk(Run(Start(capacity, feed, maxPosition), envs).sys)
  {
    if envs != [] {
      var n := |envs| - 1;
      var s := Run(Start(capacity, feed, maxPosition), envs[..n]);
      TableOfRun(capacity, feed, maxPosition, envs[..n]);
      hide React, AfterPushes, PopUpTo, TableOk;
      if s.batch != [] {
        ReactKeepsTable(s.sys, s.batch[0], envs[n]);
      }
    }
  }

  // No two accepted orders have the same id

  function Acceptances(os: seq<Order>, id: nat): real {
    if os == [] then 0.0 else Acceptances(os[..|os| - 1], id) + When(os[|os| - 1].id == id, 1.0)
  }

  ghost predicate AcceptedOnce(s: Loop, id: nat) {
    Sum(Requested(id), s) + Acceptances(s.sys.log.accepted, id) <= When(Issued(s.sys, id), 1.0)
  }

  /** A request stops being one when it is accepted. */
  lemma RequestedGain(c: System, e: Event, env: Env, id: nat)
    requires IdsOk(c) && React(c, e, env).0.maker.nextId <= MO.FIRST_ID
    ensures var c' := React(c, e, env).0;
            Gain(Requested(id), c, e, env) + Acceptances(c'.log.accepted, id) - Acceptances(c.log.accepted, id) <=
            When(Issued(c', id), 1.0) - When(Issued(c, id), 1.0)
  {
    match e
    case MarketData(t) =>
      TickMovesLife(c, t, env, id);
      hide ReactToTick, Gain, Issued, Acceptances;
    case OrderRequest(o) =>
      GainOfRequest(Requested(id), c, o, env);
      assert (c.log.accepted + [o])[..|c.log.accepted|] == c.log.accepted;
      hide Gain, OM.Validates;
    case ValidatedOrder(o) =>
      GainOfOrder(Requested(id), c, o, env);
      hide Gain, EX.Process, Acceptances;
    case CancelOrder(i) =>
      GainOfCancel(Requested(id), c, i, env);
      hide Gain, Acceptances;
    case ExecutionReport(r) =>
      GainOfReport(Requested(id), c, r, env);
      hide Gain, PE.Mark, PE.OnFill, Acceptances;
  }

  lemma AcceptedOnceStep(s: Loop, env: Env, id: nat)
    requires Basic(s) && IdsOk(s.sys) && AcceptedOnce(s, id) && Step(s, env).sys.maker.nextId <= MO.FIRST_ID
    ensures AcceptedOnce(Step(s, env), id)
  {
    hide React, AfterPushes, PopUpTo, Gain, Sum, Basic, IdsOk, Issued, Acceptances;
    StepKeepsBasic(s, env);
    StepEffect(Requested(id), s, env);
    if s.batch != [] {
      RequestedGain(s.sys, s.batch[0], env, id);
    }
  }

  lemma IdsStep(s: Loop, env: Env)
    requires IdsOk(s.sys) && Step(s, env).sys.maker.nextId <= MO.FIRST_ID
    ensures IdsOk(Step(s, env).sys)
  {
    hide React, AfterPushes, PopUpTo;
    if s.batch != [] {
      ReactIds(s.sys, s.batch[0], env);
    }
  }

  lemma {:induction false} RunAcceptsOnce(
      capacity: nat, feed: seq<seq<Tick>>, maxPosition: real, envs: seq<Env>, id: nat)
    requires Run(Start(capacity, feed, maxPosition), envs).sys.maker.nextId <= MO.FIRST_ID
    ensures var s := Run(Start(capacity, feed, maxPosition), envs); AcceptedOnce(s, id) && IdsOk(s.sys) && Basic(s)
  {
    if envs != [] {
      var n := |envs| - 1;
      var s := Run(Start(capacity, feed, maxPosition), envs[..n]);
      StepIsMonotone(s, envs[n]);
      hide Step, Basic, IdsOk, AcceptedOnce;
      RunAcceptsOnce(capacity, feed, maxPosition, envs[..n], id);
      StepKeepsBasic(s, envs[n]);
      IdsStep(s, envs[n]);
      AcceptedOnceStep(s, envs[n], id);
    }
  }

  lemma {:induction false} AcceptancesCount(os: seq<Order>, i: nat, j: nat)
    requires i < |os| && j < |os| && os[i].id == os[j].id
    ensures Acceptances(os, os[i].id) >= if i == j then 1.0 else 2.0
  {
    var n := |os| - 1;
    AcceptancesNonNegative(os[..n], os[i].id);
    if i < n {
      AcceptancesCount(os[..n], i, if j < n then j else i);
    } else if j < n {
      AcceptancesCount(os[..n], j, j);
    }
  }

  lemma {:induction false} AcceptancesNonNegative(os: seq<Order>, id: nat)
    ensures Acceptances(os, id) >= 0.0
  {
    if os != [] {
      AcceptancesNonNegative(os[..|os| - 1], id);
    }
  }

  /** As long as the id ranges have not met, drops or not, the accepted orders have different ids. */
  lemma {:induction false} AcceptedIdsDiffer(
      capacity: nat, feed: seq<seq<Tick>>, maxPosition: real, envs: seq<Env>, a: Order, b: Order)
    requires var s := Run(Start(capacity, feed, maxPosition), envs);
             s.sys.maker.nextId <= MO.FIRST_ID && a in s.sys.log.accepted && b in s.sys.log.accepted && a.id == b.id
    ensures a == b
  {
    var s := Run(Start(capacity, feed, maxPosition), envs);
    RunAcceptsOnce(capacity, feed, maxPosition, envs, a.id);
    SumNonNegative(Requested(a.id), s);
    hide Run, Basic;
    var os := s.sys.log.accepted;
    var i :| 0 <= i < |os| && os[i] == a;
    var j :| 0 <= j < |os| && os[j] == b;
    AcceptancesCount(os, i, j);
  }

  /** Every entry of the order table is an accepted order with that id. As long as the id ranges have
      not met it is the very order that is queued for the exchange, that rests there, and that the
      reports about this id describe. Drops allowed. */
  lemma {:induction false} TableHoldsTheOrders(
      capacity: nat, feed: seq<seq<Tick>>, maxPosition: real, envs: seq<Env>, id: nat)
    requires id in Run(Start(capacity, feed, maxPosition), envs).sys.active
    ensures var s := Run(Start(capacity, feed, maxPosition), envs);
            var o := s.sys.active[id];
            o.id == id && o in s.sys.log.accepted &&
            (s.sys.maker.nextId <= MO.FIRST_ID ==>
               (forall p :: ValidatedOrder(p) in Underway(s) && p.id == id ==> p == o) &&
               (forall p :: p in s.sys.exchange.resting && p.id == id ==> p == o) &&
               (forall r :: ExecutionReport(r) in Underway(s) && r.orderId == id ==>
                  BareCancellation(r) || Describes(r, o)))
  {
    var s := Run(Start(capacity, feed, maxPosition), envs);
    var o := s.sys.active[id];
    TableOfRun(capacity, feed, maxPosition, envs);
    RunKeepsBacked(capacity, feed, maxPosition, envs);
    if s.sys.maker.nextId <= MO.FIRST_ID {
      forall p | (ValidatedOrder(p) in Underway(s) || p in s.sys.exchange.resting) && p.id == id ensures p == o {
        BackedIsAccepted(s, p);
        AcceptedIdsDiffer(capacity, feed, maxPosition, envs, p, o);
      }
      forall r | ExecutionReport(r) in Underway(s) && r.orderId == id && !BareCancellation(r) ensures Describes(r, o) {
        var p := DescribedOrder(s, r);
        AcceptedIdsDiffer(capacity, feed, maxPosition, envs, p, o);
      }
    }
    hide Run, Backed, Underway;
  }

  lemma BackedIsAccepted(s: Loop, p: Order)
    requires Backed(s) && (ValidatedOrder(p) in Underway(s) || p in s.sys.exchange.resting)
    ensures p in s.sys.log.accepted
  {
    if p !in s.sys.exchange.resting {
      assert EventBacked(ValidatedOrder(p), s.sys.log.accepted);
    }
  }

  lemma DescribedOrder(s: Loop, r: Report) returns (o: Order)
    requires Backed(s) && ExecutionReport(r) in Underway(s) && !BareCancellation(r)
    ensures o in s.sys.log.accepted && Describes(r, o)
  {
    assert EventBacked(ExecutionReport(r), s.sys.log.accepted);
    o :| o in s.sys.log.accepted && Describes(r, o);
  }

  // Stuck outside the limit

  /** No accepted order can still fill. */
  ghost predicate NothingToFill(s: Loop) {
    && s.sys.exchange.resting == []
    && forall e :: e in Underway(s) ==> !e.ValidatedOrder? && (e.ExecutionReport? ==> !e.report.status.Filled?)
  }

  predicate FarOutside(c: System) {
    Abs(c.risk.position) > c.risk.maxPosition + 0.5
  }

  lemma StuckReact(c: System, e: Event, env: Env)
    requires FarOutside(c) && c.exchange.resting == [] && SystemOk(c) && EventSized(e)
    requires !e.ValidatedOrder? && (e.ExecutionReport? ==> !e.report.status.Filled?)
    ensures var (c', out) := React(c, e, env);
            c'.risk == c.risk && c'.exchange.resting == [] && c'.log.accepted == c.log.accepted &&
            forall x :: x in out ==> !x.ValidatedOrder? && (x.ExecutionReport? ==> !x.report.status.Filled?)
  {
    match e
    case MarketData(t) =>
      LoopRisk.StrategiesSend(c, t.price, env);
      assert EX.OnTick(c.exchange, t.price).1 == [];
      hide StrategiesOnTick;
    case OrderRequest(o) =>
      RequestDecided(c, o, env);
    case _ =>
      hide PE.Mark, PE.OnFill;
  }

  lemma StuckStep(s: Loop, env: Env)
    requires Basic(s) && FarOutside(s.sys) && NothingToFill(s)
    ensures var s' := Step(s, env);
            Basic(s') && NothingToFill(s') && s'.sys.risk == s.sys.risk && s'.sys.log.accepted == s.sys.log.accepted
  {
    StepKeepsBasic(s, env);
    StepMembers(s, env);
    hide React, AfterPushes, PopUpTo, SystemOk, EventSized, FarOutside;
    if s.batch != [] {
      assert s.batch[0] in Underway(s);
      StuckReact(s.sys, s.batch[0], env);
    }
  }

  /** Once the position is more than the largest order outside the limit and nothing is left to fill,
      no order is accepted any more, not even one that would reduce it: the position stays for ever. */
  lemma {:induction false} StuckOutside(s: Loop, envs: seq<Env>)
    requires Basic(s) && FarOutside(s.sys) && NothingToFill(s)
    ensures var s' := Run(s, envs);
            s'.sys.risk == s.sys.risk && s'.sys.log.accepted == s.sys.log.accepted && NothingToFill(s') && Basic(s')
  {
    if envs != [] {
      var n := |envs| - 1;
      StuckOutside(s, envs[..n]);
      StuckStep(Run(s, envs[..n]), envs[n]);
      hide Step, Basic, NothingToFill;
    }
  }

  /** Whatever ticks are still to come, and whatever the books and the clock show, the position stays. */
  ghost predicate Locked(s: Loop) {
    forall later, envs {:trigger Run(WithFeed(s, later), envs)} ::
      Run(WithFeed(s, later), envs).sys.risk == s.sys.risk
  }

  /** And the loop can get there, in main.cpp as it stands and with a fed book, with any limit that
      lets an order of the momentum strategy through and without a failed push. */
  lemma LoopCanLock(w: Wiring, capacity: nat, maxPosition: real)
    requires capacity >= 1 && maxPosition >= 0.5
    ensures exists feed, envs ::
              AllowedRun(w, Start(capacity, feed, maxPosition), envs) &&
              var s := Run(Start(capacity, feed, maxPosition), envs);
              s.sys.risk.position > maxPosition && s.queue.failed == 0 && Locked(s)
  {
    hide AllowedRun, Run, Locked;
    LoopStaircase.PositionIsUnbounded(w, capacity, maxPosition, maxPosition + 0.5);
    var feed, envs :| AllowedRun(w, Start(capacity, feed, maxPosition), envs) &&
      var s := Run(Start(capacity, feed, maxPosition), envs);
      s.sys.risk.position > maxPosition + 0.5 && s.queue.failed == 0 &&
      s.sys.exchange.resting == [] && Underway(s) == [];
    var s := Run(Start(capacity, feed, maxPosition), envs);
    WorkIsPaidFor(capacity, feed, maxPosition, envs);
    LimitStays(capacity, feed, maxPosition, envs);
    IdleOutsideIsLocked(s);
  }

  lemma IdleOutsideIsLocked(s: Loop)
    requires Basic(s) && FarOutside(s.sys) && s.sys.exchange.resting == [] && Underway(s) == []
    ensures Locked(s)
  {
    hide Run;
    forall later, envs ensures Run(WithFeed(s, later), envs).sys.risk == s.sys.risk {
      StuckOutside(WithFeed(s, later), envs);
    }
  }
}
