/**
 Taking up to four events off the queue before handling them changes nothing that matters: a
 run of the loop of main.cpp without drops is a run of a loop that takes and handles one event
 at a time, with the same ticks in the same order, the same events handled in the same order and
 the same states and queues at every turn's end. The one-at-a-time loop holds up to three more
 events in its queue, so it is given three more places.
 */
module BatchLoop {
  import opened Events
  import opened EventQueues
  import opened EventLoops
  import opened LoopSteps

  const EXTRA: nat := BATCH - 1

  /** The one-at-a-time loop: take one event off the queue, if there is one, and handle it. */
  ghost function Poll(s: Loop, env: Env): Loop {
    var (e, q) := AfterPop(s.queue);
    if e.None? then s.(queue := q) else Handle(s.(queue := q), e.value, env)
  }

  ghost function PollAll(s: Loop, envs: seq<Env>): Loop {
    if envs == [] then s else Poll(PollAll(s, envs[..|envs| - 1]), envs[|envs| - 1])
  }

  /** The same queue with more events ahead, three more places and another schedule of arrivals. */
  function WideQueue(q: Queue, ahead: seq<Event>, feed: seq<seq<Tick>>): Queue {
    q.(items := ahead + q.items, capacity := q.capacity + EXTRA, feed := feed)
  }

  /** The loop as the one-at-a-time loop sees it: what waits in the batch is still in the queue. */
  function Wide(s: Loop, feed: seq<seq<Tick>>): Loop {
    s.(queue := WideQueue(s.queue, s.batch, feed), batch := [])
  }

  // Schedules

  function First(feed: seq<seq<Tick>>): seq<Tick> {
    if feed == [] then [] else feed[0]
  }

  function Rest(feed: seq<seq<Tick>>): seq<seq<Tick>> {
    if feed == [] then [] else feed[1..]
  }

  /** The arrivals of the next `n` queue operations ... */
  function Slots(feed: seq<seq<Tick>>, n: nat): seq<seq<Tick>> {
    if n == 0 then [] else [First(feed)] + Slots(Rest(feed), n - 1)
  }

  /** ... and those after them. */
  function AfterSlots(feed: seq<seq<Tick>>, n: nat): seq<seq<Tick>> {
    if n == 0 then feed else AfterSlots(Rest(feed), n - 1)
  }

  function Flat(feed: seq<seq<Tick>>): seq<Tick> {
    if feed == [] then [] else feed[0] + Flat(feed[1..])
  }

  lemma {:induction false} FlatAppend(a: seq<seq<Tick>>, b: seq<seq<Tick>>)
    ensures Flat(a + b) == Flat(a) + Flat(b)
  {
    if a == [] {
      assert a + b == b;
    } else {
      assert (a + b)[1..] == a[1..] + b;
      FlatAppend(a[1..], b);
    }
  }

  lemma {:induction false} FlatSlots(feed: seq<seq<Tick>>, n: nat)
    ensures Flat(Slots(feed, n)) + Flat(AfterSlots(feed, n)) == Flat(feed)
  {
    if n > 0 {
      FlatSlots(Rest(feed), n - 1);
      assert Slots(feed, n)[1..] == Slots(Rest(feed), n - 1);
      assert Flat(Slots(feed, n)) == First(feed) + Flat(Slots(Rest(feed), n - 1));
    }
  }

  lemma {:induction false} SlotsSnoc(feed: seq<seq<Tick>>, n: nat)
    ensures Slots(feed, n + 1) == Slots(feed, n) + [First(AfterSlots(feed, n))]
    ensures AfterSlots(feed, n + 1) == Rest(AfterSlots(feed, n))
  {
    if n > 0 {
      SlotsSnoc(Rest(feed), n - 1);
    }
  }

  // Queue operations, with events ahead in the queue and with room for them

  /** Ticks that all fit. */
  lemma {:induction false} TicksThatFit(q: Queue, ts: seq<Tick>)
    ensures var q' := EnqueueTicks(q, ts);
            q'.failed >= q.failed && q'.feed == q.feed && q'.capacity == q.capacity &&
            (q'.failed == q.failed <==> ts == [] || |q.items| + |ts| <= q.capacity) &&
            (q'.failed == q.failed ==>
               q' == q.(items := q.items + TickEvents(ts), totalPushed := q.totalPushed + |ts|,
                        arrived := q.arrived + |ts|))
  {
    if ts != [] {
      var n := |ts| - 1;
      TicksThatFit(q, ts[..n]);
      assert q.items + TickEvents(ts) == q.items + TickEvents(ts[..n]) + [MarketData(ts[n])];
    } else {
      assert q.items + [] == q.items;
    }
  }

  lemma ArriveFits(q: Queue)
    ensures var q' := Arrive(q);
            q'.failed >= q.failed && q'.feed == Rest(q.feed) && q'.capacity == q.capacity &&
            (q'.failed == q.failed ==>
               (First(q.feed) == [] || |q.items| + |First(q.feed)| <= q.capacity) &&
               q' == q.(items := q.items + TickEvents(First(q.feed)), feed := Rest(q.feed),
                        totalPushed := q.totalPushed + |First(q.feed)|, arrived := q.arrived + |First(q.feed)|))
  {
    TicksThatFit(q.(feed := Rest(q.feed)), First(q.feed));
    if q.feed == [] {
      assert q.items + [] == q.items;
    }
  }

  lemma ArriveWide(q: Queue, ahead: seq<Event>, later: seq<seq<Tick>>)
    requires Arrive(q).failed == q.failed && |ahead| <= EXTRA
    ensures Arrive(WideQueue(q, ahead, [First(q.feed)] + later)) == WideQueue(Arrive(q), ahead, later)
  {
    var ts := First(q.feed);
    var w := WideQueue(q, ahead, [ts] + later);
    ArriveFits(q);
    assert ([ts] + later)[1..] == later;
    TicksThatFit(w.(feed := later), ts);
    assert ahead + q.items + TickEvents(ts) == ahead + (q.items + TickEvents(ts));
  }

  lemma PushWide(q: Queue, e: Event, ahead: seq<Event>, later: seq<seq<Tick>>)
    requires AfterPush(q, e).failed == q.failed && |ahead| <= EXTRA
    ensures AfterPush(WideQueue(q, ahead, [First(q.feed)] + later), e) == WideQueue(AfterPush(q, e), ahead, later)
  {
    ArriveFits(q);
    ArriveWide(q, ahead, later);
    assert ahead + Arrive(q).items + [e] == ahead + (Arrive(q).items + [e]);
  }

  lemma PushesMonotone(q: Queue, es: seq<Event>, n: nat)
    requires n <= |es|
    ensures AfterPushes(q, es[..n]).failed >= q.failed
    ensures AfterPushes(q, es).failed >= AfterPushes(q, es[..n]).failed
  {
    hide AfterPush;
    assert es == es[..n] + es[n..];
    PushesAppend(q, es[..n], es[n..]);
    PushesExtend(q, es[..n]);
    PushesExtend(AfterPushes(q, es[..n]), es[n..]);
    hide AfterPushes;
  }

  lemma {:induction false} PushesTakeSlots(q: Queue, es: seq<Event>)
    ensures AfterPushes(q, es).feed == AfterSlots(q.feed, |es|)
  {
    if es != [] {
      var n := |es| - 1;
      PushesTakeSlots(q, es[..n]);
      ArriveFits(AfterPushes(q, es[..n]));
      SlotsSnoc(q.feed, n);
      hide Arrive, AfterSlots;
    }
  }

  /** Pushes behave the same with up to three more events ahead. */
  lemma {:induction false} PushesWide(q: Queue, es: seq<Event>, ahead: seq<Event>, later: seq<seq<Tick>>)
    requires AfterPushes(q, es).failed == q.failed && |ahead| <= EXTRA
    ensures AfterPushes(WideQueue(q, ahead, Slots(q.feed, |es|) + later), es) ==
            WideQueue(AfterPushes(q, es), ahead, later)
    decreases |es|
  {
    if es == [] {
      assert [] + later == later;
    } else {
      hide AfterPush, WideQueue;
      var k := |es| - 1;
      var q1 := AfterPushes(q, es[..k]);
      PushesMonotone(q, es, k);
      PushesTakeSlots(q, es[..k]);
      SlotsSnoc(q.feed, k);
      hide Slots, AfterSlots;
      Associate(Slots(q.feed, k), [First(q1.feed)], later);
      PushesWide(q, es[..k], ahead, [First(q1.feed)] + later);
      PushWide(q1, es[k], ahead, later);
    }
  }

  // One turn

  /** The ticks that arrive while a turn fills its batch. */
  function PopTicks(q: Queue, n: nat): seq<Tick> {
    if n == 0 then []
    else
      var (es, q1) := PopUpTo(q, n - 1);
      PopTicks(q, n - 1) + if |es| < n - 1 then [] else First(q1.feed)
  }

  lemma {:induction false} TickEventsAppend(a: seq<Tick>, b: seq<Tick>)
    ensures TickEvents(a + b) == TickEvents(a) + TickEvents(b)
  {
    if b == [] {
      assert a + b == a;
    } else {
      assert (a + b)[..|a + b| - 1] == a + b[..|b| - 1];
      TickEventsAppend(a, b[..|b| - 1]);
    }
  }

  /** `es` were popped and `ts` arrived on the way from q to q'. */
  ghost predicate TookAfterTicks(q: Queue, es: seq<Event>, ts: seq<Tick>, q': Queue) {
    && q.items + TickEvents(ts) == es + q'.items
    && q' == q.(items := q'.items, feed := q'.feed, totalPushed := q.totalPushed + |ts|, arrived := q.arrived + |ts|)
    && (es != [] ==> |q'.items| < q.capacity) && |q'.items| <= q.capacity
  }

  lemma OneMorePop(q: Queue, es: seq<Event>, ts: seq<Tick>, q1: Queue)
    requires TookAfterTicks(q, es, ts, q1) && AfterPop(q1).1.failed == q1.failed
    ensures var (e, q2) := AfterPop(q1);
            if e.None? then TookAfterTicks(q, es, ts + First(q1.feed), q2) && q2.items == []
            else TookAfterTicks(q, es + [e.value], ts + First(q1.feed), q2)
  {
    var more := First(q1.feed);
    var items := Arrive(q1).items;
    ArriveFits(q1);
    TickEventsAppend(ts, more);
    hide Arrive, TickEvents;
    assert q.items + TickEvents(ts + more) == (q.items + TickEvents(ts)) + TickEvents(more);
    assert (es + q1.items) + TickEvents(more) == es + items;
    if items != [] {
      assert es + items == es + [items[0]] + items[1..];
    }
  }

  /** Popping n events with ticks arriving in between gives what popping them after all those
      ticks would give. */
  lemma {:induction false} PopsAfterTicks(q: Queue, n: nat)
    requires |q.items| <= q.capacity && PopUpTo(q, n).1.failed == q.failed
    ensures var (es, q') := PopUpTo(q, n);
            TookAfterTicks(q, es, PopTicks(q, n), q') && (|es| < n ==> q'.items == [])
  {
    if n == 0 {
      assert q.items + [] == [] + q.items;
    } else {
      var (es, q1) := PopUpTo(q, n - 1);
      PopsMonotone(q, n);
      PopsMonotone(q, n - 1);
      PopsAfterTicks(q, n - 1);
      hide TookAfterTicks, AfterPop;
      if |es| == n - 1 {
        OneMorePop(q, es, PopTicks(q, n - 1), q1);
      } else {
        assert PopTicks(q, n) == PopTicks(q, n - 1);
      }
    }
  }

  lemma {:induction false} PopsMonotone(q: Queue, n: nat)
    ensures PopUpTo(q, n).1.failed >= q.failed
    ensures n > 0 ==> PopUpTo(q, n).1.failed >= PopUpTo(q, n - 1).1.failed
  {
    if n > 0 {
      PopsMonotone(q, n - 1);
      ArriveFits(PopUpTo(q, n - 1).1);
    }
  }

  /** The schedule under which the one-at-a-time loop handles the events of a filled batch from the
      i-th on: no arrivals at a pop, those of the batch run at the pushes. */
  ghost function HandlerSchedule(s: Loop, envs: seq<Env>, i: nat): seq<seq<Tick>>
    requires i <= |s.batch| <= |envs|
    decreases |s.batch| - i
  {
    if i == |s.batch| then []
    else
      var h := Run(s, envs[..i]);
      [[]] + Slots(h.queue.feed, |React(h.sys, s.batch[i], envs[i]).1|) + HandlerSchedule(s, envs, i + 1)
  }

  lemma EmptyArrival(q: Queue, later: seq<seq<Tick>>)
    requires q.feed == [[]] + later
    ensures Arrive(q) == q.(feed := later)
  {
    assert q.feed[1..] == later;
  }

  lemma PopWide(q: Queue, e: Event, ahead: seq<Event>, later: seq<seq<Tick>>)
    ensures AfterPop(WideQueue(q, [e] + ahead, [[]] + later)) == (Some(e), WideQueue(q, ahead, later))
  {
    var w := WideQueue(q, [e] + ahead, [[]] + later);
    EmptyArrival(w, later);
    assert w.items == [e] + (ahead + q.items);
  }

  /** Handling the next event of the batch is one turn of the one-at-a-time loop. */
  lemma HandleWide(h: Loop, env: Env, later: seq<seq<Tick>>)
    requires h.batch != [] && |h.batch| <= BATCH && Step(h, env).queue.failed == h.queue.failed
    ensures Poll(Wide(h, [[]] + (Slots(h.queue.feed, |Sent(h, env)|) + later)), env) == Wide(Step(h, env), later)
  {
    hide React, AfterPushes, Slots, AfterPop;
    var more := Slots(h.queue.feed, |Sent(h, env)|) + later;
    assert h.batch == [h.batch[0]] + h.batch[1..];
    PopWide(h.queue, h.batch[0], h.batch[1..], more);
    PushesWide(h.queue, Sent(h, env), h.batch[1..], later);
  }

  lemma Regroup<T>(a: seq<T>, b: seq<T>, c: seq<T>, d: seq<T>)
    ensures a + b + c + d == a + (b + (c + d))
  {
  }

  lemma {:induction false} RunMidway(s: Loop, envs: seq<Env>, i: nat, later: seq<seq<Tick>>)
    requires i <= |s.batch| <= BATCH && |s.batch| <= |envs|
    requires Run(s, envs[..|s.batch|]).queue.failed == s.queue.failed
    ensures PollAll(Wide(s, HandlerSchedule(s, envs, 0) + later), envs[..i]) ==
            Wide(Run(s, envs[..i]), HandlerSchedule(s, envs, i) + later)
  {
    hide Poll, Step, Wide, HandlerSchedule;
    if i > 0 {
      RunMidway(s, envs, i - 1, later);
      PollMidway(s, envs, i - 1, later);
      assert envs[..i][..i - 1] == envs[..i - 1];
    }
  }

  lemma {:induction false} PollMidway(s: Loop, envs: seq<Env>, i: nat, later: seq<seq<Tick>>)
    requires i < |s.batch| <= BATCH && |s.batch| <= |envs|
    requires Run(s, envs[..|s.batch|]).queue.failed == s.queue.failed
    ensures Poll(Wide(Run(s, envs[..i]), HandlerSchedule(s, envs, i) + later), envs[i]) ==
            Wide(Run(s, envs[..i + 1]), HandlerSchedule(s, envs, i + 1) + later)
  {
    hide Step, React, Slots, Poll, Wide;
    var h := Run(s, envs[..i]);
    var slots := Slots(h.queue.feed, |React(h.sys, s.batch[i], envs[i]).1|);
    var more := HandlerSchedule(s, envs, i + 1);
    RunHandles(s, envs, i);
    var all := envs[..|s.batch|];
    RunGrows(s, all, i);
    RunGrows(s, all, i + 1);
    assert all[..i] == envs[..i] && all[..i + 1] == envs[..i + 1];
    assert envs[..i + 1][..i] == envs[..i];
    assert HandlerSchedule(s, envs, i) == [[]] + slots + more;
    hide HandlerSchedule;
    Regroup([[]], slots, more, later);
    HandleWide(h, envs[i], more + later);
  }

  /** The schedule of a whole turn: everything that arrived while the batch was filled arrives
      before its first event is taken. */
  ghost function TurnSchedule(s: Loop, envs: seq<Env>): seq<seq<Tick>>
    requires |envs| >= BATCH
  {
    if Fill(s).batch == [] then []
    else [PopTicks(s.queue, BATCH)] + HandlerSchedule(Fill(s), envs, 0)[1..]
  }

  lemma {:induction false} PollFirst(s: Loop, t: Loop, envs: seq<Env>)
    requires envs != [] && Poll(s, envs[0]) == Poll(t, envs[0])
    ensures PollAll(s, envs) == PollAll(t, envs)
  {
    if |envs| == 1 {
      assert envs[..0] == [];
    } else {
      PollFirst(s, t, envs[..|envs| - 1]);
    }
    hide Poll;
  }

  /** What a turn needs for the comparison: an empty batch and a queue within its capacity. */
  predicate Ready(s: Loop) {
    s.batch == [] && |s.queue.items| <= s.queue.capacity
  }

  /** A turn of the batch loop is as many turns of the one-at-a-time loop as it found events. */
  lemma TurnIsSingleSteps(s: Loop, envs: seq<Env>, later: seq<seq<Tick>>)
    requires |envs| >= BATCH && Ready(s) && AfterTurn(s, envs).queue.failed == s.queue.failed
    ensures PollAll(Wide(s, TurnSchedule(s, envs) + later), envs[..|Fill(s).batch|]) == Wide(AfterTurn(s, envs), later)
  {
    var s1, found := Fill(s), |Fill(s).batch|;
    FillFails(s, envs);
    hide PopUpTo;
    if found == 0 {
      NothingFound(s, envs, later);
    } else {
      TurnStarts(s, envs, later);
      assert envs[..found][0] == envs[0];
      hide Poll, Wide, TurnSchedule;
      PollFirst(Wide(s, TurnSchedule(s, envs) + later), Wide(s1, HandlerSchedule(s1, envs, 0) + later), envs[..found]);
      RunMidway(s1, envs, found, later);
      assert HandlerSchedule(s1, envs, found) + later == later;
    }
  }

  /** A turn without a failed push has none while it fills the batch. */
  lemma FillFails(s: Loop, envs: seq<Env>)
    requires |envs| >= BATCH && AfterTurn(s, envs).queue.failed == s.queue.failed
    ensures Fill(s).queue.failed == s.queue.failed && PopUpTo(s.queue, BATCH).1.failed == s.queue.failed
  {
    PopsExtend(s.queue, BATCH);
    RunGrows(Fill(s), envs[..|Fill(s).batch|], 0);
    hide PopUpTo;
    assert envs[..|Fill(s).batch|][..0] == [];
  }

  lemma NothingFound(s: Loop, envs: seq<Env>, later: seq<seq<Tick>>)
    requires |envs| >= BATCH && Ready(s)
    requires Fill(s).batch == [] && PopUpTo(s.queue, BATCH).1.failed == s.queue.failed
    ensures PollAll(Wide(s, TurnSchedule(s, envs) + later), envs[..0]) == Wide(AfterTurn(s, envs), later)
  {
    PopsAfterTicks(s.queue, BATCH);
    var q := PopUpTo(s.queue, BATCH).1;
    hide PopUpTo, PopTicks;
    assert |s.queue.items| + |TickEvents(PopTicks(s.queue, BATCH))| == |q.items| == 0;
    assert envs[..0] == [];
    assert TurnSchedule(s, envs) + later == later;
  }

  /** Both loops take the first event in the same state. */
  lemma SameFirstPop(q0: Queue, q: Queue, es: seq<Event>, ts: seq<Tick>, schedule: seq<seq<Tick>>)
    requires es != [] && |es| <= BATCH && TookAfterTicks(q0, es, ts, q)
    ensures AfterPop(WideQueue(q0, [], [ts] + schedule)) == AfterPop(WideQueue(q, es, [[]] + schedule))
  {
    var w, m := WideQueue(q0, [], [ts] + schedule), WideQueue(q, es, [[]] + schedule);
    EmptyArrival(m, schedule);
    assert w.feed[1..] == schedule;
    assert [] + q0.items == q0.items;
    assert |q0.items| + |ts| == |q0.items + TickEvents(ts)| == |es| + |q.items|;
    TicksThatFit(w.(feed := schedule), ts);
    hide TickEvents, EnqueueTicks;
    assert Arrive(w) == m.(feed := schedule);
  }

  lemma TurnStarts(s: Loop, envs: seq<Env>, later: seq<seq<Tick>>)
    requires |envs| >= BATCH && Ready(s) && Fill(s).batch != []
    requires PopUpTo(s.queue, BATCH).1.failed == s.queue.failed
    ensures Poll(Wide(s, TurnSchedule(s, envs) + later), envs[0]) ==
            Poll(Wide(Fill(s), HandlerSchedule(Fill(s), envs, 0) + later), envs[0])
  {
    hide PopTicks, HandlerSchedule, Handle, AfterPop, Run;
    var s1, ts := Fill(s), PopTicks(s.queue, BATCH);
    var handlers := HandlerSchedule(s1, envs, 0);
    PopsAfterTicks(s.queue, BATCH);
    HandlersStartEmpty(s1, envs);
    assert handlers == [[]] + handlers[1..];
    Associate([[]], handlers[1..], later);
    Associate([ts], handlers[1..], later);
    assert TurnSchedule(s, envs) + later == [ts] + (handlers[1..] + later);
    hide PopUpTo, TurnSchedule;
    SameFirstPop(s.queue, s1.queue, s1.batch, ts, handlers[1..] + later);
  }

  lemma HandlersStartEmpty(s: Loop, envs: seq<Env>)
    requires 0 < |s.batch| <= |envs|
    ensures HandlerSchedule(s, envs, 0) != [] && HandlerSchedule(s, envs, 0)[0] == []
  {
    hide Run, React, Slots;
  }

  // Whole runs

  /** The inputs of the events found, turn after turn. */
  ghost function SingleEnvs(s: Loop, turns: seq<seq<Env>>): seq<Env>
    requires forall t :: t in turns ==> |t| >= BATCH
  {
    if turns == [] then []
    else
      var n := |turns| - 1;
      SingleEnvs(s, turns[..n]) + turns[n][..|Fill(AfterTurns(s, turns[..n])).batch|]
  }

  ghost function SingleSchedule(s: Loop, turns: seq<seq<Env>>): seq<seq<Tick>>
    requires forall t :: t in turns ==> |t| >= BATCH
  {
    if turns == [] then []
    else
      var n := |turns| - 1;
      SingleSchedule(s, turns[..n]) + TurnSchedule(AfterTurns(s, turns[..n]), turns[n])
  }

  lemma {:induction false} PollAllAppend(s: Loop, a: seq<Env>, b: seq<Env>)
    ensures PollAll(s, a + b) == PollAll(PollAll(s, a), b)
  {
    if b == [] {
      assert a + b == a;
    } else {
      assert (a + b)[..|a + b| - 1] == a + b[..|b| - 1];
      PollAllAppend(s, a, b[..|b| - 1]);
    }
    hide Poll;
  }

  lemma {:induction false} TicksWithinCapacity(q: Queue, ts: seq<Tick>)
    requires |q.items| <= q.capacity
    ensures var q' := EnqueueTicks(q, ts); |q'.items| <= q'.capacity && q'.capacity == q.capacity
  {
    if ts != [] {
      TicksWithinCapacity(q, ts[..|ts| - 1]);
    }
  }

  lemma ArriveWithinCapacity(q: Queue)
    requires |q.items| <= q.capacity
    ensures |Arrive(q).items| <= Arrive(q).capacity == q.capacity
  {
    if q.feed != [] {
      TicksWithinCapacity(q.(feed := q.feed[1..]), q.feed[0]);
    }
  }

  lemma {:induction false} PushesWithinCapacity(q: Queue, es: seq<Event>)
    requires |q.items| <= q.capacity
    ensures |AfterPushes(q, es).items| <= AfterPushes(q, es).capacity == q.capacity
  {
    if es != [] {
      PushesWithinCapacity(q, es[..|es| - 1]);
      ArriveWithinCapacity(AfterPushes(q, es[..|es| - 1]));
    }
  }

  lemma {:induction false} PopsWithinCapacity(q: Queue, n: nat)
    requires |q.items| <= q.capacity
    ensures var q' := PopUpTo(q, n).1; |q'.items| <= q'.capacity == q.capacity
  {
    if n > 0 {
      PopsWithinCapacity(q, n - 1);
      ArriveWithinCapacity(PopUpTo(q, n - 1).1);
    }
  }

  lemma {:induction false} RunWithinCapacity(s: Loop, envs: seq<Env>)
    requires |s.queue.items| <= s.queue.capacity
    ensures var q' := Run(s, envs).queue; |q'.items| <= q'.capacity
  {
    if envs != [] {
      var n := |envs| - 1;
      var s1 := Run(s, envs[..n]);
      RunWithinCapacity(s, envs[..n]);
      hide React, AfterPushes, PopUpTo;
      if s1.batch == [] {
        PopsWithinCapacity(s1.queue, BATCH);
      } else {
        PushesWithinCapacity(s1.queue, Sent(s1, envs[n]));
      }
    }
  }

  lemma {:induction false} TurnsStayReady(s: Loop, turns: seq<seq<Env>>)
    requires (forall t :: t in turns ==> |t| >= BATCH) && Ready(s)
    ensures Ready(AfterTurns(s, turns))
  {
    TurnsAreSteps(s, turns);
    RunWithinCapacity(s, TurnsInputs(s, turns));
  }

  /** Without a failed push in all turns there is none in all but the last, nor in the last. */
  lemma TurnsFail(s: Loop, turns: seq<seq<Env>>)
    requires (forall t :: t in turns ==> |t| >= BATCH) && turns != [] && Ready(s)
    requires AfterTurns(s, turns).queue.failed == s.queue.failed
    ensures var s1 := AfterTurns(s, turns[..|turns| - 1]);
            Ready(s1) && s1.queue.failed == s.queue.failed && |turns[|turns| - 1]| >= BATCH &&
            AfterTurn(s1, turns[|turns| - 1]) == AfterTurns(s, turns)
  {
    var n := |turns| - 1;
    assert turns[n] in turns;
    var s1 := AfterTurns(s, turns[..n]);
    TurnsStayReady(s, turns[..n]);
    TurnsAreSteps(s, turns[..n]);
    TurnIsSteps(s1, turns[n]);
    var before, last := TurnsInputs(s, turns[..n]), TurnInputs(s1, turns[n]);
    hide TurnInputs, TurnsInputs, AfterTurn, Run;
    NoFails(s, before);
    NoFails(s1, last);
  }

  lemma NoFails(s: Loop, envs: seq<Env>)
    ensures Run(s, envs).queue.failed >= s.queue.failed
  {
    RunGrows(s, envs, 0);
    assert envs[..0] == [];
  }

  /** The batch loop refines the one-at-a-time loop over whole runs without drops. */
  lemma {:induction false} BatchRunIsSingleRun(s: Loop, turns: seq<seq<Env>>, later: seq<seq<Tick>>)
    requires (forall t :: t in turns ==> |t| >= BATCH) && Ready(s)
    requires AfterTurns(s, turns).queue.failed == s.queue.failed
    ensures PollAll(Wide(s, SingleSchedule(s, turns) + later), SingleEnvs(s, turns)) ==
            Wide(AfterTurns(s, turns), later)
  {
    if turns == [] {
      assert [] + later == later;
    } else {
      hide AfterTurn, TurnSchedule, PollAll, Wide, Fill, Run;
      var n := |turns| - 1;
      var s1 := AfterTurns(s, turns[..n]);
      TurnsFail(s, turns);
      var before, schedule := SingleSchedule(s, turns[..n]), TurnSchedule(s1, turns[n]);
      var envs, found := SingleEnvs(s, turns[..n]), turns[n][..|Fill(s1).batch|];
      assert SingleSchedule(s, turns) == before + schedule && SingleEnvs(s, turns) == envs + found;
      BatchRunIsSingleRun(s, turns[..n], schedule + later);
      TurnIsSingleSteps(s1, turns[n], later);
      hide AfterTurns, SingleSchedule, SingleEnvs;
      Associate(before, schedule, later);
      PollAllAppend(Wide(s, before + (schedule + later)), envs, found);
    }
  }

  // The schedules deliver the same ticks in the same order

  lemma {:induction false} PopTicksAreFirst(q: Queue, n: nat)
    ensures PopTicks(q, n) + Flat(PopUpTo(q, n).1.feed) == Flat(q.feed)
  {
    if n > 0 {
      var (es, q1) := PopUpTo(q, n - 1);
      PopTicksAreFirst(q, n - 1);
      ArriveFits(q1);
      if |es| == n - 1 {
        assert Flat(q1.feed) == First(q1.feed) + Flat(Rest(q1.feed));
      }
      hide Arrive;
    }
  }

  lemma FlatAfterPop(slots: seq<seq<Tick>>, more: seq<seq<Tick>>)
    ensures Flat([[]] + slots + more) == Flat(slots) + Flat(more)
  {
    FlatAppend([[]] + slots, more);
    assert ([[]] + slots)[1..] == slots;
  }

  lemma HandleTakesSlots(h: Loop, env: Env)
    requires h.batch != []
    ensures Step(h, env).queue.feed == AfterSlots(h.queue.feed, |Sent(h, env)|)
  {
    hide React, AfterPushes;
    PushesTakeSlots(h.queue, Sent(h, env));
  }

  lemma {:induction false} HandlerTicks(s: Loop, envs: seq<Env>, i: nat)
    requires i <= |s.batch| <= |envs|
    ensures Flat(HandlerSchedule(s, envs, i)) + Flat(Run(s, envs[..|s.batch|]).queue.feed) ==
            Flat(Run(s, envs[..i]).queue.feed)
    decreases |s.batch| - i
  {
    hide Step, React, Slots;
    if i < |s.batch| {
      HandlerTicks(s, envs, i + 1);
      assert envs[..i + 1][..i] == envs[..i];
      var h := Run(s, envs[..i]);
      RunHandles(s, envs, i);
      HandleTakesSlots(h, envs[i]);
      var n := |Sent(h, envs[i])|;
      FlatSlots(h.queue.feed, n);
      var slots, more := Slots(h.queue.feed, n), HandlerSchedule(s, envs, i + 1);
      assert HandlerSchedule(s, envs, i) == [[]] + slots + more;
      hide HandlerSchedule, Run, Flat;
      FlatAfterPop(slots, more);
    }
  }

  lemma FlatCons(ts: seq<Tick>, feed: seq<seq<Tick>>)
    ensures Flat([ts] + feed) == ts + Flat(feed)
  {
    assert ([ts] + feed)[1..] == feed;
  }

  lemma NothingArrived(s: Loop)
    requires Ready(s) && Fill(s).batch == [] && PopUpTo(s.queue, BATCH).1.failed == s.queue.failed
    ensures PopTicks(s.queue, BATCH) == []
  {
    PopsAfterTicks(s.queue, BATCH);
    hide PopUpTo, PopTicks;
    assert |s.queue.items| + |TickEvents(PopTicks(s.queue, BATCH))| == |Fill(s).queue.items| == 0;
  }

  /** Ticks of the turn's schedule, followed by the ticks still to come, are the ticks that were
      to come before the turn. */
  lemma TurnKeepsTicks(s: Loop, envs: seq<Env>)
    requires |envs| >= BATCH && Ready(s) && AfterTurn(s, envs).queue.failed == s.queue.failed
    ensures Flat(TurnSchedule(s, envs)) + Flat(AfterTurn(s, envs).queue.feed) == Flat(s.queue.feed)
  {
    hide PopUpTo, PopTicks, HandlerSchedule, Run, Flat;
    var s1, ts := Fill(s), PopTicks(s.queue, BATCH);
    var schedule, feed := HandlerSchedule(s1, envs, 0), AfterTurn(s, envs).queue.feed;
    FillFails(s, envs);
    PopTicksAreFirst(s.queue, BATCH);
    HandlerTicks(s1, envs, 0);
    assert envs[..0] == [];
    NoSteps(s1);
    assert ts + (Flat(schedule) + Flat(feed)) == Flat(s.queue.feed);
    hide Fill, AfterTurn;
    if s1.batch == [] {
      NothingArrived(s);
      FlatOfNothing();
    } else {
      HandlersStartEmpty(s1, envs);
      FlatCons([], schedule[1..]);
      FlatCons(ts, schedule[1..]);
      assert schedule == [[]] + schedule[1..];
      Associate(ts, Flat(schedule[1..]), Flat(feed));
    }
  }

  lemma NoSteps(s: Loop)
    ensures Run(s, []) == s
  {
  }

  lemma FlatOfNothing()
    ensures Flat([]) == []
  {
  }

  /** The one-at-a-time run sees the same ticks in the same order as the batch run. */
  lemma {:induction false} RunKeepsTicks(s: Loop, turns: seq<seq<Env>>)
    requires (forall t :: t in turns ==> |t| >= BATCH) && Ready(s)
    requires AfterTurns(s, turns).queue.failed == s.queue.failed
    ensures Flat(SingleSchedule(s, turns)) + Flat(AfterTurns(s, turns).queue.feed) == Flat(s.queue.feed)
  {
    hide AfterTurn, TurnSchedule;
    if turns != [] {
      hide Flat;
      var n := |turns| - 1;
      var s1 := AfterTurns(s, turns[..n]);
      TurnsFail(s, turns);
      RunKeepsTicks(s, turns[..n]);
      TurnKeepsTicks(s1, turns[n]);
      FlatAppend(SingleSchedule(s, turns[..n]), TurnSchedule(s1, turns[n]));
      Associate(Flat(SingleSchedule(s, turns[..n])), Flat(TurnSchedule(s1, turns[n])),
                Flat(AfterTurns(s, turns).queue.feed));
    }
  }
}
