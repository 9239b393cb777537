/**
 The event queue as the processor thread and the feed thread share it (core/event_queue.hpp):
 a FIFO of bounded capacity whose operations are atomic. `feed` is the schedule of the feed
 thread: its k-th element holds the ticks it pushes just before the k-th queue operation of
 the processor thread, so ticks may slip in between any two of them.
 */
module EventQueues {
  import opened Events

  /** `failed` counts the pushes that found the queue full, `arrived` the ticks accepted. */
  datatype Queue = Queue(
    items: seq<Event>, capacity: nat, feed: seq<seq<Tick>>,
    totalPushed: nat, failed: nat, arrived: nat)

  function Enqueue(q: Queue, e: Event): Queue {
    if |q.items| < q.capacity then
      q.(items := q.items + [e], totalPushed := q.totalPushed + 1)
    else
      q.(totalPushed := q.totalPushed + 1, failed := q.failed + 1)
  }

  function EnqueueTick(q: Queue, t: Tick): Queue {
    var q' := Enqueue(q, MarketData(t));
    if q'.failed == q.failed then q'.(arrived := q'.arrived + 1) else q'
  }

  function EnqueueTicks(q: Queue, ts: seq<Tick>): Queue {
    if ts == [] then q
    else EnqueueTick(EnqueueTicks(q, ts[..|ts| - 1]), ts[|ts| - 1])
  }

  function Arrive(q: Queue): Queue {
    if q.feed == [] then q else EnqueueTicks(q.(feed := q.feed[1..]), q.feed[0])
  }

  /** `push`: the return value is not looked at by any caller, so a failed push loses the event. */
  function AfterPush(q: Queue, e: Event): Queue {
    Enqueue(Arrive(q), e)
  }

  function AfterPushes(q: Queue, es: seq<Event>): Queue {
    if es == [] then q
    else AfterPush(AfterPushes(q, es[..|es| - 1]), es[|es| - 1])
  }

  function AfterPop(q: Queue): (Option<Event>, Queue) {
    var q1 := Arrive(q);
    if q1.items == [] then (None, q1) else (Some(q1.items[0]), q1.(items := q1.items[1..]))
  }

  lemma {:induction false} PushesAppend(q: Queue, a: seq<Event>, b: seq<Event>)
    ensures AfterPushes(q, a + b) == AfterPushes(AfterPushes(q, a), b)
  {
    if b == [] {
      assert a + b == a;
    } else {
      var n := |b| - 1;
      assert (a + b)[..|a + b| - 1] == a + b[..n];
      PushesAppend(q, a, b[..n]);
    }
  }

  function TickEvents(ts: seq<Tick>): (es: seq<Event>)
    ensures |es| == |ts|
  {
    if ts == [] then [] else TickEvents(ts[..|ts| - 1]) + [MarketData(ts[|ts| - 1])]
  }

  /** The feed thread's ticks go in, in order, until the queue is full; the rest are lost. */
  lemma {:induction false} TicksArriveUntilFull(q: Queue, ts: seq<Tick>)
    requires |q.items| <= q.capacity
    ensures var room := q.capacity - |q.items|;
            var n := if |ts| <= room then |ts| else room;
            EnqueueTicks(q, ts) ==
              q.(items := q.items + TickEvents(ts[..n]), totalPushed := q.totalPushed + |ts|,
                 failed := q.failed + (|ts| - n), arrived := q.arrived + n)
  {
    if ts == [] {
      assert q.items + [] == q.items;
    } else {
      var k := |ts| - 1;
      TicksArriveUntilFull(q, ts[..k]);
      var q1, room := EnqueueTicks(q, ts[..k]), q.capacity - |q.items|;
      assert EnqueueTicks(q, ts) == EnqueueTick(q1, ts[k]);
      hide EnqueueTicks;
      if |ts| <= room {
        assert ts[..k][..k] == ts[..k] && ts[..|ts|] == ts;
        assert TickEvents(ts) == TickEvents(ts[..k]) + [MarketData(ts[k])];
        hide TickEvents;
        assert q.items + (TickEvents(ts[..k]) + [MarketData(ts[k])]) ==
          q.items + TickEvents(ts[..k]) + [MarketData(ts[k])];
      } else {
        hide TickEvents;
        assert ts[..k][..room] == ts[..room];
      }
    }
  }

  class EventQueue {
    const capacity: nat
    var items: seq<Event>
    var totalPushed: nat
    var feed: seq<seq<Tick>>
    var failed: nat
    var arrived: nat

    ghost function View(): Queue
      reads this
    {
      Queue(items, capacity, feed, totalPushed, failed, arrived)
    }

    constructor (capacity: nat, feed: seq<seq<Tick>>)
      ensures View() == Queue([], capacity, feed, 0, 0, 0)
    {
      this.capacity := capacity;
      items, totalPushed, failed, arrived := [], 0, 0, 0;
      this.feed := feed;
    }

    /** The feed thread's turn. */
    method FeedTurn()
      modifies this
      ensures View() == Arrive(old(View()))
    {
      if feed == [] {
        return;
      }
      var ticks := feed[0];
      feed := feed[1..];
      ghost var q := View();
      var i := 0;
      while i < |ticks|
        invariant i <= |ticks| && View() == EnqueueTicks(q, ticks[..i])
      {
        totalPushed := totalPushed + 1;
        if |items| < capacity {
          items := items + [MarketData(ticks[i])];
          arrived := arrived + 1;
        } else {
          failed := failed + 1;
        }
        assert ticks[..i + 1][..i] == ticks[..i];
        i := i + 1;
      }
      assert ticks[..i] == ticks;
    }

    method Push(e: Event) returns (ok: bool)
      modifies this
      ensures View() == AfterPush(old(View()), e)
      ensures ok <==> failed == Arrive(old(View())).failed
      ensures var waiting := Arrive(old(View())).items;
              ok == (|waiting| < capacity) && items == if ok then waiting + [e] else waiting
    {
      FeedTurn();
      totalPushed := totalPushed + 1;
      ok := |items| < capacity;
      if ok {
        items := items + [e];
      } else {
        failed := failed + 1;
      }
    }

    method Pop() returns (e: Option<Event>)
      modifies this
      ensures (e, View()) == AfterPop(old(View()))
      ensures var waiting := Arrive(old(View())).items;
              if waiting == [] then e.None? && items == [] else e == Some(waiting[0]) && items == waiting[1..]
    {
      FeedTurn();
      if items == [] {
        return None;
      }
      e := Some(items[0]);
      items := items[1..];
    }

    method Size() returns (n: nat)
      ensures n == |items|
    {
      n := |items|;
    }
  }
}
