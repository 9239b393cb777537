/**
 What a step of the loop does to the events under way, those waiting in the batch followed by
 those in the queue: filling the batch moves none of them, handling one takes it off the front,
 and anything new joins at the end. All of it holds with and without failed pushes.
 */
module LoopSteps {
  import opened Events
  import opened EventQueues
  import opened EventLoops

  function Underway(s: Loop): seq<Event> {
    s.batch + s.queue.items
  }

  /** `after` is `before` and then ticks and events of `sent`. */
  ghost predicate Extends(before: seq<Event>, after: seq<Event>, sent: seq<Event>) {
    && |before| <= |after| && after[..|before|] == before
    && forall e :: e in after[|before|..] ==> e in sent || e.MarketData?
  }

  /** What every queue operation keeps. */
  predicate Grows(q: Queue, q': Queue) {
    q'.failed >= q.failed && q'.arrived >= q.arrived && q'.capacity == q.capacity
  }

  lemma Associate<T>(a: seq<T>, b: seq<T>, c: seq<T>)
    ensures a + b + c == a + (b + c)
  {
  }

  lemma ExtendsMore(a: seq<Event>, b: seq<Event>, c: seq<Event>, sent: seq<Event>)
    requires Extends(a, b, sent) && Extends(b, c, sent)
    ensures Extends(a, c, sent)
  {
    assert c == b + c[|b|..];
    assert c[|a|..] == b[|a|..] + c[|b|..];
    assert c[..|a|] == b[..|a|];
  }

  lemma ExtendsBehind(ahead: seq<Event>, a: seq<Event>, b: seq<Event>, sent: seq<Event>)
    requires Extends(a, b, sent)
    ensures Extends(ahead + a, ahead + b, sent)
  {
    assert (ahead + b)[|ahead + a|..] == b[|a|..];
    assert b == a + b[|a|..];
  }

  lemma MoreSent(a: seq<Event>, b: seq<Event>, some: seq<Event>, all: seq<Event>)
    requires Extends(a, b, some) && forall e :: e in some ==> e in all
    ensures Extends(a, b, all)
  {
  }

  /** Everything under way afterwards was under way before, was sent, or is a tick. */
  lemma ExtendsMembers(before: seq<Event>, after: seq<Event>, sent: seq<Event>)
    requires Extends(before, after, sent)
    ensures forall e :: e in after ==> e in before || e in sent || e.MarketData?
  {
    assert after == before + after[|before|..];
  }

  // Queue operations

  lemma {:induction false} TicksExtend(q: Queue, ts: seq<Tick>)
    ensures Grows(q, EnqueueTicks(q, ts)) && Extends(q.items, EnqueueTicks(q, ts).items, [])
  {
    if ts != [] {
      var q1 := EnqueueTicks(q, ts[..|ts| - 1]);
      TicksExtend(q, ts[..|ts| - 1]);
      assert Extends(q1.items, EnqueueTicks(q, ts).items, []);
      ExtendsMore(q.items, q1.items, EnqueueTicks(q, ts).items, []);
    }
  }

  lemma ArriveExtends(q: Queue)
    ensures Grows(q, Arrive(q)) && Extends(q.items, Arrive(q).items, [])
  {
    if q.feed != [] {
      TicksExtend(q.(feed := q.feed[1..]), q.feed[0]);
    }
  }

  lemma PushExtends(q: Queue, e: Event)
    ensures Grows(q, AfterPush(q, e)) && Extends(q.items, AfterPush(q, e).items, [e])
  {
    ArriveExtends(q);
    hide Arrive;
    MoreSent(q.items, Arrive(q).items, [], [e]);
    assert Extends(Arrive(q).items, AfterPush(q, e).items, [e]);
    ExtendsMore(q.items, Arrive(q).items, AfterPush(q, e).items, [e]);
  }

  lemma {:induction false} PushesExtend(q: Queue, es: seq<Event>)
    ensures Grows(q, AfterPushes(q, es)) && Extends(q.items, AfterPushes(q, es).items, es)
  {
    if es != [] {
      var n := |es| - 1;
      var q1 := AfterPushes(q, es[..n]);
      PushesExtend(q, es[..n]);
      PushExtends(q1, es[n]);
      hide AfterPush;
      MoreSent(q.items, q1.items, es[..n], es);
      MoreSent(q1.items, AfterPushes(q, es).items, [es[n]], es);
      ExtendsMore(q.items, q1.items, AfterPushes(q, es).items, es);
    }
  }

  lemma {:induction false} PopsExtend(q: Queue, n: nat)
    ensures var (es, q') := PopUpTo(q, n); Grows(q, q') && Extends(q.items, es + q'.items, [])
  {
    if n == 0 {
      assert [] + q.items == q.items;
    } else {
      var (es, q1) := PopUpTo(q, n - 1);
      PopsExtend(q, n - 1);
      if |es| == n - 1 {
        OneMorePop(q1, es);
        var (es', q') := PopUpTo(q, n);
        ExtendsMore(q.items, es + q1.items, es' + q'.items, []);
      }
    }
  }

  lemma OneMorePop(q: Queue, es: seq<Event>)
    ensures var (e, q') := AfterPop(q);
            Grows(q, q') && Extends(es + q.items, (if e.None? then es else es + [e.value]) + q'.items, [])
  {
    ArriveExtends(q);
    hide Arrive;
    var items := Arrive(q).items;
    ExtendsBehind(es, q.items, items, []);
    if items != [] {
      assert es + items == (es + [items[0]]) + items[1..];
    }
  }

  // Steps

  /** What the step that handles the next event sends. */
  ghost function Sent(s: Loop, env: Env): seq<Event>
    requires s.batch != []
  {
    React(s.sys, s.batch[0], env).1
  }

  lemma FillExtends(s: Loop)
    requires s.batch == []
    ensures Grows(s.queue, Fill(s).queue) && Extends(Underway(s), Underway(Fill(s)), [])
    ensures |Fill(s).batch| <= BATCH
  {
    PopsExtend(s.queue, BATCH);
    hide PopUpTo;
    assert Underway(s) == s.queue.items;
  }

  lemma HandleExtends(s: Loop, env: Env)
    requires s.batch != []
    ensures Underway(s)[0] == s.batch[0] && Underway(s)[1..] == s.batch[1..] + s.queue.items
    ensures Grows(s.queue, Step(s, env).queue) && Extends(Underway(s)[1..], Underway(Step(s, env)), Sent(s, env))
  {
    var out, q := Sent(s, env), AfterPushes(s.queue, Sent(s, env));
    hide React, AfterPushes;
    assert Underway(s) == [s.batch[0]] + (s.batch[1..] + s.queue.items);
    assert Step(s, env).queue == q && Underway(Step(s, env)) == s.batch[1..] + q.items;
    hide Step, Extends;
    PushesExtend(s.queue, out);
    ExtendsBehind(s.batch[1..], s.queue.items, q.items, out);
  }

  /** Every step in one: what is under way afterwards. */
  lemma StepMembers(s: Loop, env: Env)
    ensures Grows(s.queue, Step(s, env).queue)
    ensures forall e :: e in Underway(Step(s, env)) ==>
              e in Underway(s) || (s.batch != [] && e in Sent(s, env)) || e.MarketData?
  {
    hide Fill, Handle, React;
    if s.batch == [] {
      FillExtends(s);
      ExtendsMembers(Underway(s), Underway(Step(s, env)), []);
    } else {
      HandleExtends(s, env);
      ExtendsMembers(Underway(s)[1..], Underway(Step(s, env)), Sent(s, env));
    }
  }

  // Turns are steps

  lemma {:induction false} RunAppend(s: Loop, a: seq<Env>, b: seq<Env>)
    ensures Run(s, a + b) == Run(Run(s, a), b)
  {
    hide Step;
    if b == [] {
      assert a + b == a;
    } else {
      assert (a + b)[..|a + b| - 1] == a + b[..|b| - 1];
      RunAppend(s, a, b[..|b| - 1]);
    }
  }

  lemma {:induction false} RunGrowsAll(s: Loop, envs: seq<Env>)
    ensures Grows(s.queue, Run(s, envs).queue)
  {
    hide Step;
    if envs != [] {
      var n := |envs| - 1;
      RunGrowsAll(s, envs[..n]);
      StepMembers(Run(s, envs[..n]), envs[n]);
    }
  }

  lemma RunGrows(s: Loop, envs: seq<Env>, i: nat)
    requires i <= |envs|
    ensures Grows(s.queue, Run(s, envs[..i]).queue)
    ensures Grows(Run(s, envs[..i]).queue, Run(s, envs).queue)
  {
    hide Run;
    assert envs == envs[..i] + envs[i..];
    RunAppend(s, envs[..i], envs[i..]);
    RunGrowsAll(s, envs[..i]);
    RunGrowsAll(Run(s, envs[..i]), envs[i..]);
  }

  lemma HandleTakesNext(s: Loop, env: Env)
    requires s.batch != []
    ensures Step(s, env).batch == s.batch[1..] && Step(s, env).handled == s.handled + [s.batch[0]]
  {
    hide React, AfterPushes;
  }

  /** While a turn handles its batch the events found are handled in order. */
  lemma {:induction false} RunHandles(s: Loop, envs: seq<Env>, i: nat)
    requires i <= |s.batch| && i <= |envs|
    ensures var s' := Run(s, envs[..i]); s'.batch == s.batch[i..] && s'.handled == s.handled + s.batch[..i]
  {
    hide Step;
    if i == 0 {
      assert s.batch[..0] == [] && s.batch[0..] == s.batch && s.handled + [] == s.handled;
    } else {
      RunHandles(s, envs, i - 1);
      HandleTakesNext(Run(s, envs[..i - 1]), envs[i - 1]);
      assert envs[..i][..i - 1] == envs[..i - 1];
      assert s.batch[i - 1..][0] == s.batch[i - 1] && s.batch[i - 1..][1..] == s.batch[i..];
      assert s.handled + s.batch[..i] == s.handled + s.batch[..i - 1] + [s.batch[i - 1]];
    }
  }

  /** The inputs of the steps of a turn: one step to fill the batch, one for each event in it. */
  function TurnInputs(s: Loop, envs: seq<Env>): seq<Env>
    requires |envs| >= BATCH
  {
    [envs[0]] + envs[..|Fill(s).batch|]
  }

  lemma TurnIsSteps(s: Loop, envs: seq<Env>)
    requires |envs| >= BATCH && s.batch == []
    ensures AfterTurn(s, envs) == Run(s, TurnInputs(s, envs))
    ensures AfterTurn(s, envs).batch == []
    ensures AfterTurn(s, envs).handled == s.handled + Fill(s).batch
  {
    var found := |Fill(s).batch|;
    RunHandles(Fill(s), envs, found);
    RunAppend(s, [envs[0]], envs[..found]);
    assert Fill(s).batch[..found] == Fill(s).batch;
    hide Fill;
    assert [envs[0]][..0] == [];
    assert Run(s, [envs[0]]) == Step(s, envs[0]);
  }

  /** The inputs of all steps of many turns. */
  ghost function TurnsInputs(s: Loop, turns: seq<seq<Env>>): seq<Env>
    requires forall t :: t in turns ==> |t| >= BATCH
  {
    if turns == [] then []
    else
      var n := |turns| - 1;
      TurnsInputs(s, turns[..n]) + TurnInputs(AfterTurns(s, turns[..n]), turns[n])
  }

  /** Any number of turns of `while (running)` is a run of steps, so what holds after every run of
      steps holds after every turn, and between any two events inside one. */
  lemma {:induction false} TurnsAreSteps(s: Loop, turns: seq<seq<Env>>)
    requires (forall t :: t in turns ==> |t| >= BATCH) && s.batch == []
    ensures AfterTurns(s, turns) == Run(s, TurnsInputs(s, turns))
    ensures AfterTurns(s, turns).batch == []
  {
    if turns != [] {
      var n := |turns| - 1;
      assert turns[n] in turns;
      var s1 := AfterTurns(s, turns[..n]);
      TurnsAreSteps(s, turns[..n]);
      TurnIsSteps(s1, turns[n]);
      RunAppend(s, TurnsInputs(s, turns[..n]), TurnInputs(s1, turns[n]));
      hide AfterTurn, TurnInputs, Run;
    }
  }
}
