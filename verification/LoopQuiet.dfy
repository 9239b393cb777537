/**
 Runs in which nothing arrives by itself. Left alone with its queue the loop hands the events under
 way to the components in order, then what they sent, and so on. And a run that is built from such
 stretches, with a tick arriving now and then, is a run from the start under one schedule of the feed
 thread.
 */
module LoopQuiet {
  import opened Events
  import opened EventQueues
  import opened EventLoops
  import opened LoopSteps
  import opened LoopDrains
  import opened LoopWiring
  import LoopRisk
  import EX = MatchingEngines

  /** The components after handling `es` in order, and all they send. */
  ghost function Absorb(c: System, es: seq<Event>, env: Env): (System, seq<Event>) {
    if es == [] then (c, [])
    else
      var n := |es| - 1;
      var (c1, out1) := Absorb(c, es[..n], env);
      var (c2, out2) := React(c1, es[n], env);
      (c2, out1 + out2)
  }

  lemma {:induction false} AbsorbAppend(c: System, a: seq<Event>, b: seq<Event>, env: Env)
    ensures var (c1, out1) := Absorb(c, a, env);
            var (c2, out2) := Absorb(c1, b, env);
            Absorb(c, a + b, env) == (c2, out1 + out2)
  {
    hide React;
    var (c1, out1) := Absorb(c, a, env);
    if b == [] {
      assert a + b == a;
      assert out1 + [] == out1;
    } else {
      var n := |b| - 1;
      assert (a + b)[..|a + b| - 1] == a + b[..n] && (a + b)[|a + b| - 1] == b[n];
      AbsorbAppend(c, a, b[..n], env);
      var (c2, out2) := Absorb(c1, b[..n], env);
      assert (out1 + out2) + React(c2, b[n], env).1 == out1 + (out2 + React(c2, b[n], env).1);
    }
  }

  lemma AbsorbOne(c: System, e: Event, env: Env)
    ensures Absorb(c, [e], env) == React(c, e, env)
  {
    hide React;
    assert [e][..0] == [];
    assert [] + React(c, e, env).1 == React(c, e, env).1;
  }

  /** `k` rounds: the events, what they cause, what that causes, ... */
  ghost function Rounds(c: System, es: seq<Event>, env: Env, k: nat): (System, seq<Event>) {
    if k == 0 then (c, es)
    else
      var (c1, es1) := Rounds(c, es, env, k - 1);
      Absorb(c1, es1, env)
  }

  lemma {:induction false} NothingLeft(c: System, env: Env, k: nat)
    ensures Rounds(c, [], env, k) == (c, [])
  {
    if k > 0 {
      NothingLeft(c, env, k - 1);
    }
  }

  lemma AbsorbNone(c: System, env: Env)
    ensures Absorb(c, [], env) == (c, [])
  {
  }

  lemma TwoRounds(c: System, es: seq<Event>, env: Env)
    ensures var (c1, e1) := Absorb(c, es, env); Rounds(c, es, env, 2) == Absorb(c1, e1, env)
  {
    hide Absorb;
    assert Rounds(c, es, env, 1) == Absorb(c, es, env);
  }

  lemma ThreeRounds(c: System, es: seq<Event>, env: Env)
    ensures var (c1, e1) := Absorb(c, es, env);
            var (c2, e2) := Absorb(c1, e1, env);
            Rounds(c, es, env, 3) == Absorb(c2, e2, env)
  {
    hide Absorb;
    TwoRounds(c, es, env);
  }

  // Steps of the loop

  /** The same inputs for `k` steps. */
  function Same(env: Env, k: nat): (envs: seq<Env>)
    ensures |envs| == k && forall i :: 0 <= i < k ==> envs[i] == env
  {
    seq(k, _ => env)
  }

  lemma SameSplits(env: Env, j: nat, k: nat)
    ensures Same(env, j + k) == Same(env, j) + Same(env, k)
  {
  }

  lemma OneStep(w: Wiring, s: Loop, env: Env)
    ensures Run(s, Same(env, 1)) == Step(s, env)
    ensures Allowed(w, s, env) ==> AllowedRun(w, s, Same(env, 1))
  {
    hide Step, Allowed;
    assert Same(env, 1)[..0] == [];
    assert Run(s, []) == s;
  }

  lemma {:induction false} PushesQuiet(q: Queue, es: seq<Event>)
    requires q.feed == [] && |q.items| + |es| <= q.capacity
    ensures AfterPushes(q, es) == q.(items := q.items + es, totalPushed := q.totalPushed + |es|)
  {
    if es == [] {
      assert q.items + [] == q.items;
    } else {
      var n := |es| - 1;
      PushesQuiet(q, es[..n]);
      assert q.items + es == q.items + es[..n] + [es[n]];
    }
  }

  /** What a quiet stretch leaves as it is. */
  ghost predicate Settled(s: Loop, s': Loop) {
    && s'.queue.feed == [] && s'.queue.failed == s.queue.failed && s'.queue.capacity == s.queue.capacity
  }

  lemma HandleQuiet(s: Loop, env: Env)
    requires s.batch != [] && s.queue.feed == []
    requires |s.queue.items| + |React(s.sys, s.batch[0], env).1| <= s.queue.capacity
    ensures var s', (c, out) := Step(s, env), React(s.sys, s.batch[0], env);
            Settled(s, s') && s'.sys == c && s'.batch == s.batch[1..] && s'.queue.items == s.queue.items + out &&
            s'.handled == s.handled + [s.batch[0]]
  {
    hide React, AfterPushes;
    PushesQuiet(s.queue, Sent(s, env));
  }

  /** Serve the first event under way, filling the batch before if necessary. */
  ghost function ServeSteps(s: Loop): nat {
    if s.batch == [] then 2 else 1
  }

  ghost predicate Served(s: Loop, s': Loop, env: Env)
    requires Underway(s) != []
  {
    var e := Underway(s)[0];
    && Settled(s, s') && s'.sys == React(s.sys, e, env).0
    && Underway(s') == Underway(s)[1..] + React(s.sys, e, env).1
    && s'.handled == s.handled + [e]
    && (|Underway(s)| == 1 ==> s'.batch == [])
  }

  lemma HandleServes(w: Wiring, s: Loop, env: Env)
    requires s.batch != [] && s.queue.feed == [] && Fits(w, s.handled, s.batch[0], env)
    requires |s.queue.items| + |React(s.sys, s.batch[0], env).1| <= s.queue.capacity
    ensures Underway(s)[0] == s.batch[0]
    ensures Served(s, Run(s, Same(env, 1)), env) && AllowedRun(w, s, Same(env, 1))
  {
    hide React, Fits;
    HandleQuiet(s, env);
    OneStep(w, s, env);
    hide Step;
    assert Underway(s)[1..] == s.batch[1..] + s.queue.items;
  }

  lemma {:induction false} ServeOne(w: Wiring, s: Loop, env: Env)
    requires s.queue.feed == [] && Underway(s) != []
    requires |Underway(s)| - 1 + |React(s.sys, Underway(s)[0], env).1| <= s.queue.capacity
    requires Fits(w, s.handled, Underway(s)[0], env) && (w.AsWired? ==> env.top.None?)
    ensures Served(s, Run(s, Same(env, ServeSteps(s))), env) && AllowedRun(w, s, Same(env, ServeSteps(s)))
  {
    if s.batch != [] {
      hide React, Fits, Served;
      assert Underway(s)[0] == s.batch[0];
      HandleServes(w, s, env);
    } else {
      var s1 := Fill(s);
      PopsKeepQuiet(s.queue, BATCH);
      hide PopUpTo, React, Fits, Run, AllowedRun;
      assert Underway(s1) == Underway(s) == s.queue.items;
      HandleServes(w, s1, env);
      OneStep(w, s, env);
      SameSplits(env, 1, 1);
      RunAppend(s, Same(env, 1), Same(env, 1));
      AllowedAppend(w, s, Same(env, 1), Same(env, 1));
    }
  }

  // Rounds

  predicate TickFree(es: seq<Event>) {
    forall e :: e in es ==> !e.MarketData?
  }

  /** Nothing but a tick causes more than one event, and nothing causes a tick. */
  lemma ReactSends(c: System, e: Event, env: Env)
    ensures !e.MarketData? ==> |React(c, e, env).1| <= 1
    ensures TickFree(React(c, e, env).1)
  {
    match e
    case MarketData(t) =>
      LoopRisk.StrategiesSend(c, t.price, env);
      hide StrategiesOnTick, EX.OnTick;
    case _ =>
      hide EX.Process, EventLoops.PE.Mark, EventLoops.PE.OnFill;
  }

  lemma {:induction false} AbsorbSends(c: System, es: seq<Event>, env: Env)
    requires TickFree(es)
    ensures |Absorb(c, es, env).1| <= |es| && TickFree(Absorb(c, es, env).1)
  {
    if es != [] {
      var n := |es| - 1;
      assert es[n] in es;
      AbsorbSends(c, es[..n], env);
      ReactSends(Absorb(c, es[..n], env).0, es[n], env);
      hide React;
    }
  }

  lemma {:induction false} TicksAppend(a: seq<Event>, b: seq<Event>)
    ensures TicksIn(a + b) == TicksIn(a) + TicksIn(b)
  {
    if b == [] {
      assert a + b == a;
      assert TicksIn(a) + [] == TicksIn(a);
    } else {
      var n := |b| - 1;
      assert (a + b)[..|a + b| - 1] == a + b[..n] && (a + b)[|a + b| - 1] == b[n];
      TicksAppend(a, b[..n]);
      var last := if b[n].MarketData? then [b[n].tick] else [];
      assert TicksIn(a + b) == TicksIn(a + b[..n]) + last && TicksIn(b) == TicksIn(b[..n]) + last;
      hide TicksIn;
      Associate(TicksIn(a), TicksIn(b[..n]), last);
    }
  }

  lemma {:induction false} NoTicksIn(es: seq<Event>)
    requires TickFree(es)
    ensures TicksIn(es) == []
  {
    if es != [] {
      assert es[|es| - 1] in es;
      NoTicksIn(es[..|es| - 1]);
    }
  }

  /** The loop has gone on to `s'`, handling no tick. */
  ghost predicate WentOn(w: Wiring, s: Loop, envs: seq<Env>, s': Loop) {
    Run(s, envs) == s' && AllowedRun(w, s, envs) && Settled(s, s') && TicksIn(s'.handled) == TicksIn(s.handled)
  }

  lemma WentOnFurther(w: Wiring, s: Loop, a: seq<Env>, s1: Loop, b: seq<Env>, s2: Loop)
    requires WentOn(w, s, a, s1) && WentOn(w, s1, b, s2)
    ensures WentOn(w, s, a + b, s2)
  {
    hide Run, AllowedRun, TicksIn;
    RunAppend(s, a, b);
    AllowedAppend(w, s, a, b);
  }

  lemma WentNowhere(w: Wiring, s: Loop)
    requires s.queue.feed == []
    ensures WentOn(w, s, [], s)
  {
  }

  /** Serve the first events under way, none of them a tick. */
  lemma {:induction false} ServeAll(w: Wiring, s: Loop, env: Env, es: seq<Event>, rest: seq<Event>)
      returns (envs: seq<Env>, s': Loop)
    requires s.queue.feed == [] && Underway(s) == es + rest && TickFree(es)
    requires |es| + |rest| <= s.queue.capacity && (w.AsWired? ==> env.top.None?)
    ensures WentOn(w, s, envs, s')
    ensures s'.sys == Absorb(s.sys, es, env).0 && Underway(s') == rest + Absorb(s.sys, es, env).1
  {
    if es == [] {
      envs, s' := [], s;
      WentNowhere(w, s);
      assert rest + [] == rest == es + rest;
    } else {
      hide React, WentOn, Run, AllowedRun, Fits;
      var n := |es| - 1;
      var e := es[n];
      assert es + rest == es[..n] + ([e] + rest) && e in es;
      var a, s1 := ServeAll(w, s, env, es[..n], [e] + rest);
      AbsorbSends(s.sys, es[..n], env);
      var (c1, out1) := Absorb(s.sys, es[..n], env);
      var (c2, out2) := React(c1, e, env);
      assert Absorb(s.sys, es, env) == (c2, out1 + out2);
      hide Absorb, TickFree, Underway;
      Associate([e], rest, out1);
      ReactSends(c1, e, env);
      var b, s2 := ServeNext(w, s, a, s1, env);
      Associate(rest, out1, out2);
      envs, s' := a + b, s2;
    }
  }

  /** Go on with the first event under way, which is no tick. */
  lemma ServeNext(w: Wiring, s: Loop, a: seq<Env>, s1: Loop, env: Env) returns (b: seq<Env>, s2: Loop)
    requires WentOn(w, s, a, s1) && Underway(s1) != [] && !Underway(s1)[0].MarketData?
    requires |Underway(s1)| - 1 + |React(s1.sys, Underway(s1)[0], env).1| <= s.queue.capacity
    requires w.AsWired? ==> env.top.None?
    ensures WentOn(w, s, a + b, s2)
    ensures s2.sys == React(s1.sys, Underway(s1)[0], env).0
    ensures Underway(s2) == Underway(s1)[1..] + React(s1.sys, Underway(s1)[0], env).1
  {
    hide React, Run, AllowedRun;
    b := Same(env, ServeSteps(s1));
    ServeOne(w, s1, env);
    s2 := Run(s1, b);
    TicksAppend(s1.handled, [Underway(s1)[0]]);
    NoTicksIn([Underway(s1)[0]]);
    assert TicksIn(s1.handled) + [] == TicksIn(s1.handled);
    WentOnFurther(w, s, a, s1, b, s2);
  }

  /** One round: all that is under way. */
  lemma ServeRound(w: Wiring, s: Loop, env: Env) returns (envs: seq<Env>, s': Loop)
    requires s.queue.feed == [] && TickFree(Underway(s)) && |Underway(s)| <= s.queue.capacity
    requires w.AsWired? ==> env.top.None?
    ensures WentOn(w, s, envs, s') && (s'.sys, Underway(s')) == Absorb(s.sys, Underway(s), env)
    ensures TickFree(Underway(s')) && |Underway(s')| <= |Underway(s)|
  {
    hide WentOn, Absorb, Underway;
    var es := Underway(s);
    AbsorbSends(s.sys, es, env);
    assert es + [] == es;
    envs, s' := ServeAll(w, s, env, es, []);
    assert [] + Absorb(s.sys, es, env).1 == Absorb(s.sys, es, env).1;
  }

  /** Left alone the loop goes through the rounds. */
  lemma {:induction false} ServeRounds(w: Wiring, s: Loop, env: Env, k: nat) returns (envs: seq<Env>, s': Loop)
    requires s.queue.feed == [] && TickFree(Underway(s)) && |Underway(s)| <= s.queue.capacity
    requires w.AsWired? ==> env.top.None?
    ensures WentOn(w, s, envs, s')
    ensures (s'.sys, Underway(s')) == Rounds(s.sys, Underway(s), env, k)
    ensures TickFree(Underway(s')) && |Underway(s')| <= s.queue.capacity
  {
    hide WentOn, Absorb, Underway, TickFree;
    if k == 0 {
      envs, s' := [], s;
      WentNowhere(w, s);
    } else {
      var a, s1 := ServeRounds(w, s, env, k - 1);
      WentOnFacts(w, s, a, s1);
      assert s1.queue.feed == [] && s1.queue.capacity == s.queue.capacity;
      hide Settled, Rounds;
      var b, s2 := ServeRound(w, s1, env);
      WentOnFurther(w, s, a, s1, b, s2);
      envs, s' := a + b, s2;
      RoundsUnfold(s.sys, Underway(s), env, k);
    }
  }

  lemma RoundsUnfold(c: System, es: seq<Event>, env: Env, k: nat)
    requires k > 0
    ensures var (c1, es1) := Rounds(c, es, env, k - 1); Rounds(c, es, env, k) == Absorb(c1, es1, env)
  {
    hide Absorb;
  }

  // The schedule of the feed thread

  function WithFeed(s: Loop, feed: seq<seq<Tick>>): Loop {
    s.(queue := s.queue.(feed := feed))
  }

  /** No tick for the next `k` queue operations. */
  function Blank(k: nat): seq<seq<Tick>> {
    seq(k, _ => [])
  }

  lemma BlankAppend(a: nat, b: nat, later: seq<seq<Tick>>)
    ensures Blank(a + b) + later == Blank(a) + (Blank(b) + later)
  {
  }

  lemma NothingArrives(q: Queue, later: seq<seq<Tick>>)
    ensures Arrive(q.(feed := Blank(1) + later)) == q.(feed := later)
  {
    assert (Blank(1) + later)[1..] == later;
  }

  lemma PopLift(q: Queue, later: seq<seq<Tick>>)
    requires q.feed == []
    ensures var (e, q') := AfterPop(q);
            AfterPop(q.(feed := Blank(1) + later)) == (e, q'.(feed := later)) && q'.feed == []
  {
    NothingArrives(q, later);
    hide Blank;
  }

  lemma {:induction false} PushesLift(q: Queue, es: seq<Event>, later: seq<seq<Tick>>)
    requires q.feed == []
    ensures AfterPushes(q.(feed := Blank(|es|) + later), es) == AfterPushes(q, es).(feed := later)
    ensures AfterPushes(q, es).feed == []
  {
    if es == [] {
      assert Blank(0) + later == later;
    } else {
      var n := |es| - 1;
      PushesLift(q, es[..n], Blank(1) + later);
      BlankAppend(n, 1, later);
      NothingArrives(AfterPushes(q, es[..n]), later);
      hide Blank;
    }
  }

  /** How many pops it takes to find `n` events or an empty queue. */
  function PopOps(q: Queue, n: nat): nat {
    if n == 0 then 0
    else PopOps(q, n - 1) + if |PopUpTo(q, n - 1).0| < n - 1 then 0 else 1
  }

  lemma {:induction false} PopsLift(q: Queue, n: nat, later: seq<seq<Tick>>)
    requires q.feed == []
    ensures PopUpTo(q.(feed := Blank(PopOps(q, n)) + later), n) ==
            (PopUpTo(q, n).0, PopUpTo(q, n).1.(feed := later))
    ensures PopUpTo(q, n).1.feed == []
  {
    if n == 0 {
      assert Blank(0) + later == later;
    } else {
      var (es, q1) := PopUpTo(q, n - 1);
      if |es| < n - 1 {
        PopsLift(q, n - 1, later);
      } else {
        PopsLift(q, n - 1, Blank(1) + later);
        BlankAppend(PopOps(q, n - 1), 1, later);
        hide Blank;
        PopLift(q1, later);
        hide AfterPop;
      }
    }
  }

  /** Queue operations of a step and of a run of steps. */
  ghost function StepOps(s: Loop, env: Env): nat {
    if s.batch == [] then PopOps(s.queue, BATCH) else |Sent(s, env)|
  }

  ghost function RunOps(s: Loop, envs: seq<Env>): nat {
    if envs == [] then 0
    else
      var n := |envs| - 1;
      RunOps(s, envs[..n]) + StepOps(Run(s, envs[..n]), envs[n])
  }

  lemma StepLift(s: Loop, env: Env, later: seq<seq<Tick>>)
    requires s.queue.feed == []
    ensures Step(WithFeed(s, Blank(StepOps(s, env)) + later), env) == WithFeed(Step(s, env), later)
    ensures Step(s, env).queue.feed == []
  {
    hide React, AfterPushes, PopUpTo, PopOps, Blank;
    if s.batch == [] {
      PopsLift(s.queue, BATCH, later);
    } else {
      PushesLift(s.queue, Sent(s, env), later);
    }
  }

  /** A run without arrivals is the same when the schedule says so and goes on afterwards. */
  lemma {:induction false} RunLift(w: Wiring, s: Loop, envs: seq<Env>, later: seq<seq<Tick>>)
    requires s.queue.feed == []
    ensures Run(WithFeed(s, Blank(RunOps(s, envs)) + later), envs) == WithFeed(Run(s, envs), later)
    ensures Run(s, envs).queue.feed == []
    ensures AllowedRun(w, s, envs) ==> AllowedRun(w, WithFeed(s, Blank(RunOps(s, envs)) + later), envs)
  {
    hide Step, StepOps, Fits;
    if envs == [] {
      assert Blank(0) + later == later;
    } else {
      var n := |envs| - 1;
      var h := Run(s, envs[..n]);
      RunLift(w, s, envs[..n], Blank(StepOps(h, envs[n])) + later);
      StepLift(h, envs[n], later);
      BlankAppend(RunOps(s, envs[..n]), StepOps(h, envs[n]), later);
      hide Blank;
    }
  }

  // What can be reached

  /** The feed of one machine and the limit it runs with. */
  datatype Setup = Setup(wiring: Wiring, capacity: nat, maxPosition: real)

  /** How the loop got somewhere: the schedule so far and the inputs so far. */
  datatype Path = Path(feed: seq<seq<Tick>>, envs: seq<Env>)

  function Origin(m: Setup, feed: seq<seq<Tick>>): Loop {
    Start(m.capacity, feed, m.maxPosition)
  }

  /** From the start this path gets to `s`, with inputs the wiring allows, whatever the schedule goes
      on with. */
  ghost predicate Reaches(m: Setup, p: Path, s: Loop) {
    forall later {:trigger WithFeed(s, later)} ::
      Run(Origin(m, p.feed + later), p.envs) == WithFeed(s, later) &&
      AllowedRun(m.wiring, Origin(m, p.feed + later), p.envs)
  }

  lemma StartIsReached(m: Setup)
    ensures Reaches(m, Path([], []), Origin(m, []))
  {
    forall later
      ensures Run(Origin(m, [] + later), []) == WithFeed(Origin(m, []), later)
      ensures AllowedRun(m.wiring, Origin(m, [] + later), [])
    {
      assert [] + later == later;
    }
  }

  /** One stretch of the way, with its own piece of schedule. */
  ghost predicate Stretch(w: Wiring, s: Loop, p: Path, s': Loop) {
    forall later {:trigger WithFeed(s', later)} ::
      Run(WithFeed(s, p.feed + later), p.envs) == WithFeed(s', later) &&
      AllowedRun(w, WithFeed(s, p.feed + later), p.envs)
  }

  lemma ReachFurther(m: Setup, p: Path, s: Loop, q: Path, s': Loop)
    requires Reaches(m, p, s) && Stretch(m.wiring, s, q, s')
    ensures Reaches(m, Path(p.feed + q.feed, p.envs + q.envs), s')
  {
    hide Run, AllowedRun, WithFeed, Origin;
    var r := Path(p.feed + q.feed, p.envs + q.envs);
    forall later
      ensures Run(Origin(m, r.feed + later), r.envs) == WithFeed(s', later)
      ensures AllowedRun(m.wiring, Origin(m, r.feed + later), r.envs)
    {
      ReachLater(m, p, s, q, s', later);
    }
  }

  lemma ReachLater(m: Setup, p: Path, s: Loop, q: Path, s': Loop, later: seq<seq<Tick>>)
    requires Reaches(m, p, s) && Stretch(m.wiring, s, q, s')
    ensures Run(Origin(m, p.feed + q.feed + later), p.envs + q.envs) == WithFeed(s', later)
    ensures AllowedRun(m.wiring, Origin(m, p.feed + q.feed + later), p.envs + q.envs)
  {
    hide Run, AllowedRun, WithFeed, Origin;
    Associate(p.feed, q.feed, later);
    var s0 := Origin(m, p.feed + (q.feed + later));
    assert WithFeed(s, q.feed + later) == Run(s0, p.envs) && AllowedRun(m.wiring, s0, p.envs);
    assert WithFeed(s', later) == Run(Run(s0, p.envs), q.envs);
    RunAppend(s0, p.envs, q.envs);
    AllowedAppend(m.wiring, s0, p.envs, q.envs);
  }

  /** A quiet stretch. */
  lemma QuietStretch(w: Wiring, s: Loop, envs: seq<Env>)
    requires s.queue.feed == [] && AllowedRun(w, s, envs)
    ensures Stretch(w, s, Path(Blank(RunOps(s, envs)), envs), Run(s, envs))
  {
    hide Run, AllowedRun, WithFeed, RunOps, Blank;
    forall later
      ensures Run(WithFeed(s, Blank(RunOps(s, envs)) + later), envs) == WithFeed(Run(s, envs), later)
      ensures AllowedRun(w, WithFeed(s, Blank(RunOps(s, envs)) + later), envs)
    {
      RunLift(w, s, envs, later);
    }
  }

  /** The batch just filled with what was in the queue and a tick that arrived meanwhile. */
  function WithTick(s: Loop, t: Tick): Loop {
    var q := s.queue;
    s.(batch := q.items + [MarketData(t)],
       queue := q.(items := [], totalPushed := q.totalPushed + 1, arrived := q.arrived + 1))
  }

  /** The batch is empty and at most one event is queued. */
  predicate NearlyIdle(s: Loop) {
    s.batch == [] && |s.queue.items| <= 1 && s.queue.feed == [] && s.queue.capacity >= 1
  }

  /** The tick arrives when the queue has just been emptied, and before it is found empty. */
  lemma FillWithTick(s: Loop, t: Tick, env: Env, later: seq<seq<Tick>>)
    requires NearlyIdle(s)
    ensures Step(WithFeed(s, Blank(|s.queue.items|) + [[t]] + Blank(1) + later), env) == WithFeed(WithTick(s, t), later)
  {
    var n := |s.queue.items|;
    var next := [[t]] + (Blank(1) + later);
    assert Blank(n) + [[t]] + Blank(1) + later == Blank(n) + next;
    var q0, q1 := s.queue.(feed := Blank(n) + next), s.queue.(items := [], feed := next);
    var q2, q3 := WithTick(s, t).queue.(feed := Blank(1) + later), WithTick(s, t).queue.(feed := later);
    TickFound(q1, t, Blank(1) + later);
    PopLift(q2.(feed := []), later);
    assert AfterPop(q2) == (None, q3);
    if n == 0 {
      assert Blank(0) + next == next;
      assert q0 == q1;
      hide AfterPop;
      PopsOfOne(q0, MarketData(t), q2, q3);
      assert s.queue.items + [MarketData(t)] == [MarketData(t)];
    } else {
      var e := s.queue.items[0];
      PopLift(s.queue, next);
      assert s.queue.items[1..] == [];
      assert AfterPop(q0) == (Some(e), q1);
      hide AfterPop;
      PopsOfTwo(q0, e, q1, MarketData(t), q2, q3);
      assert s.queue.items + [MarketData(t)] == [e, MarketData(t)];
    }
  }

  lemma TickFound(q: Queue, t: Tick, later: seq<seq<Tick>>)
    requires q.items == [] && q.capacity >= 1 && q.feed == [[t]] + later
    ensures AfterPop(q) ==
            (Some(MarketData(t)), q.(feed := later, totalPushed := q.totalPushed + 1, arrived := q.arrived + 1))
  {
    assert q.feed[1..] == later && [t][..0] == [];
    var q1 := q.(feed := later);
    assert EnqueueTicks(q1, [t]) == EnqueueTick(EnqueueTicks(q1, []), t);
    assert [] + [MarketData(t)] == [MarketData(t)] && [MarketData(t)][1..] == q.items;
  }

  lemma PopsOfOne(q: Queue, e: Event, q1: Queue, q2: Queue)
    requires AfterPop(q) == (Some(e), q1) && AfterPop(q1) == (None, q2)
    ensures PopUpTo(q, BATCH) == ([e], q2)
  {
    hide AfterPop;
    assert PopUpTo(q, 0) == ([], q) && [] + [e] == [e];
    assert PopUpTo(q, 1) == ([e], q1);
    assert PopUpTo(q, 2) == ([e], q2);
    assert PopUpTo(q, 3) == ([e], q2);
  }

  lemma PopsOfTwo(q: Queue, e: Event, q1: Queue, f: Event, q2: Queue, q3: Queue)
    requires AfterPop(q) == (Some(e), q1) && AfterPop(q1) == (Some(f), q2) && AfterPop(q2) == (None, q3)
    ensures PopUpTo(q, BATCH) == ([e, f], q3)
  {
    hide AfterPop;
    assert PopUpTo(q, 0) == ([], q) && [] + [e] == [e] && [e] + [f] == [e, f];
    assert PopUpTo(q, 1) == ([e], q1);
    assert PopUpTo(q, 2) == ([e, f], q2);
    assert PopUpTo(q, 3) == ([e, f], q3);
  }

  function TickSlots(s: Loop, t: Tick): seq<seq<Tick>> {
    Blank(|s.queue.items|) + [[t]] + Blank(1)
  }

  /** A tick arrives while the loop fills its batch. */
  lemma TickStretch(w: Wiring, s: Loop, t: Tick, env: Env)
    requires NearlyIdle(s) && (w.AsWired? ==> env.top.None?)
    ensures Stretch(w, s, Path(TickSlots(s, t), Same(env, 1)), WithTick(s, t))
  {
    forall later
      ensures Run(WithFeed(s, TickSlots(s, t) + later), Same(env, 1)) == WithFeed(WithTick(s, t), later)
      ensures AllowedRun(w, WithFeed(s, TickSlots(s, t) + later), Same(env, 1))
    {
      FillWithTick(s, t, env, later);
      hide Step, Blank, WithTick, Run, AllowedRun;
      OneStep(w, WithFeed(s, TickSlots(s, t) + later), env);
    }
  }

  lemma ReachTick(m: Setup, p: Path, s: Loop, t: Tick, env: Env) returns (p': Path)
    requires Reaches(m, p, s) && NearlyIdle(s) && (m.wiring.AsWired? ==> env.top.None?)
    ensures Reaches(m, p', WithTick(s, t))
  {
    hide Reaches, Stretch;
    TickStretch(m.wiring, s, t, env);
    var q := Path(TickSlots(s, t), Same(env, 1));
    ReachFurther(m, p, s, q, WithTick(s, t));
    p' := Path(p.feed + q.feed, p.envs + q.envs);
  }

  lemma ReachQuietly(m: Setup, p: Path, s: Loop, envs: seq<Env>) returns (p': Path)
    requires Reaches(m, p, s) && s.queue.feed == [] && AllowedRun(m.wiring, s, envs)
    ensures Reaches(m, p', Run(s, envs))
  {
    hide Reaches, Stretch, Run, AllowedRun;
    QuietStretch(m.wiring, s, envs);
    var q := Path(Blank(RunOps(s, envs)), envs);
    ReachFurther(m, p, s, q, Run(s, envs));
    p' := Path(p.feed + q.feed, p.envs + q.envs);
  }

  /** Where a path leads, with nothing more to come. */
  lemma ReachedNow(m: Setup, p: Path, s: Loop)
    requires Reaches(m, p, s) && s.queue.feed == []
    ensures Run(Origin(m, p.feed), p.envs) == s && AllowedRun(m.wiring, Origin(m, p.feed), p.envs)
  {
    hide Run, AllowedRun;
    assert WithFeed(s, []) == s;
    assert p.feed + [] == p.feed;
  }

  // A tick and everything it causes

  predicate Idle(s: Loop) {
    NearlyIdle(s) && s.queue.items == []
  }

  /** The tick and three rounds after it: requests, orders, reports. */
  ghost function AfterTick(c: System, t: Tick, env: Env): (System, seq<Event>) {
    var (c1, out) := React(c, MarketData(t), env);
    Rounds(c1, out, env, 3)
  }

  /** From an idle loop, one tick later, idle again. */
  lemma ReachAfterTick(m: Setup, p: Path, s: Loop, t: Tick, env: Env) returns (p': Path, s': Loop)
    requires Reaches(m, p, s) && Idle(s)
    requires Fits(m.wiring, s.handled, MarketData(t), env) && (m.wiring.AsWired? ==> env.top.None?)
    requires |React(s.sys, MarketData(t), env).1| <= s.queue.capacity && AfterTick(s.sys, t, env).1 == []
    ensures Reaches(m, p', s') && Idle(s') && s'.sys == AfterTick(s.sys, t, env).0
    ensures s'.queue.failed == s.queue.failed && s'.queue.capacity == s.queue.capacity
    ensures TicksIn(s'.handled) == TicksIn(s.handled) + [t]
  {
    hide Reaches, Run, AllowedRun, Fits, React, Rounds, WentOn;
    var st := WithTick(s, t);
    var p1 := ReachTick(m, p, s, t, env);
    assert [] + [MarketData(t)] == [MarketData(t)];
    var s1 := HandleTick(m.wiring, st, env);
    var p2 := ReachQuietly(m, p1, st, Same(env, 1));
    ReactSends(s.sys, MarketData(t), env);
    var envs, s2 := ServeRounds(m.wiring, s1, env, 3);
    WentOnFacts(m.wiring, s1, envs, s2);
    p' := ReachQuietly(m, p2, s1, envs);
    s' := s2;
  }

  lemma WentOnFacts(w: Wiring, s: Loop, envs: seq<Env>, s': Loop)
    requires WentOn(w, s, envs, s')
    ensures s' == Run(s, envs) && AllowedRun(w, s, envs) && Settled(s, s') && TicksIn(s'.handled) == TicksIn(s.handled)
  {
    hide Run, AllowedRun, TicksIn;
  }

  /** The batch holds just a tick: handle it. */
  lemma HandleTick(w: Wiring, s: Loop, env: Env) returns (s': Loop)
    requires |s.batch| == 1 && s.batch[0].MarketData? && s.queue.items == [] && s.queue.feed == []
    requires Fits(w, s.handled, s.batch[0], env)
    requires |React(s.sys, s.batch[0], env).1| <= s.queue.capacity
    ensures s' == Run(s, Same(env, 1)) && AllowedRun(w, s, Same(env, 1))
    ensures var (c, out) := React(s.sys, s.batch[0], env);
            Settled(s, s') && s'.sys == c && s'.batch == [] && s'.queue.items == out && Underway(s') == out
    ensures TicksIn(s'.handled) == TicksIn(s.handled) + [s.batch[0].tick]
  {
    hide React, Run, Fits;
    HandleServes(w, s, env);
    s' := Run(s, Same(env, 1));
    assert s.batch + [] == s.batch && s.batch[1..] == [];
    var out := React(s.sys, s.batch[0], env).1;
    assert [] + out == out;
    assert (s.handled + [s.batch[0]])[..|s.handled|] == s.handled;
  }
}
