/**
 The lock-free single-producer single-consumer ring (core/ring_buffer.hpp) as
 a machine of atomic steps. The producer and the consumer each have a program
 counter; any interleaving of their steps is a run.

 The load of the *other* side's index may return an old value: any value that
 index held since the last one this side saw. The up-to-date value is one of the
 choices, so sequentially consistent runs are included.
 */
module RingProtocol {
  datatype Producer<T> =
    | PIdle
    | PHasHead(item: T, head: nat)   // own index loaded, full test still to come
    | PHasRoom(item: T, head: nat)   // full test passed, slot still to be written
    | PWrote(item: T, head: nat)     // slot written, index still to be published

  datatype Consumer<T> =
    | CIdle
    | CHasTail(tail: nat)            // own index loaded, empty test still to come
    | CHasItem(tail: nat)            // empty test passed, slot still to be read
    | CRead(tail: nat, value: T)     // slot read, index still to be published

  /** `pushed`, `popped`, `tailSeen` and `headSeen` are history: what has been published
      so far, and how far each side knows the other one to be. */
  datatype Ring<T> = Ring(
    size: nat, buffer: seq<T>, head: nat, tail: nat,
    producer: Producer<T>, consumer: Consumer<T>,
    pushed: seq<T>, popped: seq<T>, tailSeen: nat, headSeen: nat)

  datatype Action<T> =
    | LoadOwnHead(item: T)
    | LoadTail(count: nat)           // returns the tail as it was after `count` pops
    | WriteSlot
    | StoreHead
    | LoadOwnTail
    | LoadHead(count: nat)           // returns the head as it was after `count` pushes
    | ReadSlot
    | StoreTail

  /** What the caller of `push` or `pop` can observe of a step. */
  datatype Outcome<T> = Internal | Pushed(item: T) | Full | Popped(item: T) | Empty

  predicate Enabled<T>(s: Ring<T>, a: Action<T>) {
    s.size >= 2 &&
    match a
    case LoadOwnHead(_) => s.producer.PIdle?
    case LoadTail(k) => s.producer.PHasHead? && s.tailSeen <= k <= |s.popped|
    case WriteSlot => s.producer.PHasRoom? && s.producer.head < |s.buffer|
    case StoreHead => s.producer.PWrote?
    case LoadOwnTail => s.consumer.CIdle?
    case LoadHead(k) => s.consumer.CHasTail? && s.headSeen <= k <= |s.pushed|
    case ReadSlot => s.consumer.CHasItem? && s.consumer.tail < |s.buffer|
    case StoreTail => s.consumer.CRead?
  }

  function Do<T>(s: Ring<T>, a: Action<T>): (Ring<T>, Outcome<T>)
    requires Enabled(s, a)
  {
    match a
    case LoadOwnHead(x) => (s.(producer := PHasHead(x, s.head)), Internal)
    case LoadTail(k) =>
      var p := s.producer;
      if (p.head + 1) % s.size == k % s.size then
        (s.(producer := PIdle, tailSeen := k), Full)
      else
        (s.(producer := PHasRoom(p.item, p.head), tailSeen := k), Internal)
    case WriteSlot =>
      var p := s.producer;
      (s.(producer := PWrote(p.item, p.head), buffer := s.buffer[p.head := p.item]), Internal)
    case StoreHead =>
      var p := s.producer;
      (s.(producer := PIdle, head := (p.head + 1) % s.size, pushed := s.pushed + [p.item]), Pushed(p.item))
    case LoadOwnTail => (s.(consumer := CHasTail(s.tail)), Internal)
    case LoadHead(k) =>
      var c := s.consumer;
      if c.tail == k % s.size then
        (s.(consumer := CIdle, headSeen := k), Empty)
      else
        (s.(consumer := CHasItem(c.tail), headSeen := k), Internal)
    case ReadSlot =>
      var c := s.consumer;
      (s.(consumer := CRead(c.tail, s.buffer[c.tail])), Internal)
    case StoreTail =>
      var c := s.consumer;
      (s.(consumer := CIdle, tail := (c.tail + 1) % s.size, popped := s.popped + [c.value]), Popped(c.value))
  }

  /** The queue the ring stands for: what was published and not yet taken. */
  function Contents<T>(s: Ring<T>): seq<T>
    requires |s.popped| <= |s.pushed|
  {
    s.pushed[|s.popped|..]
  }

  ghost predicate ProducerOk<T>(s: Ring<T>)
    requires s.size >= 2
  {
    match s.producer
    case PIdle => true
    case PHasHead(_, h) => h == s.head
    case PHasRoom(_, h) => h == s.head && |s.pushed| + 1 - s.tailSeen < s.size
    case PWrote(x, h) => h == s.head && |s.pushed| + 1 - s.tailSeen < s.size && h < |s.buffer| && s.buffer[h] == x
  }

  ghost predicate ConsumerOk<T>(s: Ring<T>) {
    match s.consumer
    case CIdle => true
    case CHasTail(t) => t == s.tail
    case CHasItem(t) => t == s.tail && |s.popped| < s.headSeen
    case CRead(t, x) => t == s.tail && |s.popped| < s.headSeen <= |s.pushed| && x == s.pushed[|s.popped|]
  }

  /** Every published and untaken item is in its slot. */
  ghost predicate SlotsOk<T>(s: Ring<T>)
    requires s.size >= 2 && |s.buffer| == s.size
  {
    forall i {:trigger s.pushed[i]} :: |s.popped| <= i < |s.pushed| ==> s.buffer[i % s.size] == s.pushed[i]
  }

  ghost predicate Inv<T>(s: Ring<T>) {
    && s.size >= 2
    && |s.buffer| == s.size
    && s.head == |s.pushed| % s.size
    && s.tail == |s.popped| % s.size
    && s.tailSeen <= |s.popped| <= s.headSeen <= |s.pushed| < s.tailSeen + s.size
    && s.popped <= s.pushed
    && ProducerOk(s)
    && ConsumerOk(s)
    && SlotsOk(s)
  }

  /** The specification: a FIFO of bounded capacity. */
  ghost predicate FifoStep<T>(capacity: nat, before: seq<T>, out: Outcome<T>, after: seq<T>) {
    match out
    case Pushed(x) => |before| < capacity && after == before + [x]
    case Popped(x) => before != [] && x == before[0] && after == before[1..]
    case _ => after == before
  }

  // Index arithmetic

  lemma MultipleBound(n: int, d: int)
    requires n >= 0
    ensures d == 0 || n * d >= n || n * d <= -n
  {
    if d >= 1 {
      assert n * d == n + n * (d - 1);
    } else if d <= -1 {
      assert n * d == -n + n * (d + 1);
    }
  }

  /** Quotient and remainder are unique. */
  lemma {:induction false} Remainder(x: nat, n: nat, q: int, r: nat)
    requires n > 0 && r < n && x == n * q + r
    ensures x % n == r
  {
    assert x == n * (x / n) + x % n;
    assert n * (x / n - q) == r - x % n;
    MultipleBound(n, x / n - q);
  }

  lemma {:induction false} WindowIndices(a: nat, b: nat, n: nat)
    requires n > 0 && a < b < a + n
    ensures a % n != b % n
  {
    var d := b / n - a / n;
    assert b - a == n * d + (b % n - a % n);
    if a % n == b % n {
      MultipleBound(n, d);
    }
  }

  lemma {:induction false} NextIndex(a: nat, n: nat)
    requires n > 0
    ensures (a % n + 1) % n == (a + 1) % n
  {
    var q, r := a / n, a % n;
    assert a == n * q + r;
    if r + 1 == n {
      assert a + 1 == n * (q + 1) + 0;
      Remainder(a + 1, n, q + 1, 0);
      Remainder(r + 1, n, 1, 0);
    } else {
      Remainder(a + 1, n, q, r + 1);
      Remainder(r + 1, n, 0, r + 1);
    }
  }

  /** The index comparison of `push` decides fullness against the tail it loaded. */
  lemma {:induction false} FullTest(pushed: nat, seen: nat, n: nat)
    requires n >= 2 && seen <= pushed < seen + n
    ensures (pushed % n + 1) % n == seen % n <==> pushed - seen == n - 1
  {
    NextIndex(pushed, n);
    if pushed - seen == n - 1 {
      assert seen == n * (seen / n) + seen % n;
      assert pushed + 1 == n * (seen / n + 1) + seen % n;
      Remainder(pushed + 1, n, seen / n + 1, seen % n);
    } else {
      WindowIndices(seen, pushed + 1, n);
    }
  }

  // One step

  lemma {:induction false} ProducerStep<T>(s: Ring<T>, a: Action<T>)
    requires Inv(s) && Enabled(s, a)
    requires a.LoadOwnHead? || a.LoadTail? || a.WriteSlot? || a.StoreHead?
    ensures Inv(Do(s, a).0)
  {
    match a
    case LoadOwnHead(_) =>
    case LoadTail(k) =>
      FullTest(|s.pushed|, k, s.size);
    case WriteSlot =>
      var s' := Do(s, a).0;
      forall i {:trigger s.pushed[i]} | |s.popped| <= i < |s.pushed| ensures s'.buffer[i % s.size] == s.pushed[i] {
        WindowIndices(i, |s.pushed|, s.size);
      }
    case StoreHead =>
      NextIndex(|s.pushed|, s.size);
  }

  lemma {:induction false} ConsumerStep<T>(s: Ring<T>, a: Action<T>)
    requires Inv(s) && Enabled(s, a)
    requires a.LoadOwnTail? || a.LoadHead? || a.ReadSlot? || a.StoreTail?
    ensures Inv(Do(s, a).0)
  {
    match a
    case LoadOwnTail =>
    case LoadHead(k) =>
      if |s.popped| < k {
        WindowIndices(|s.popped|, k, s.size);
      }
    case ReadSlot =>
    case StoreTail =>
      NextIndex(|s.popped|, s.size);
  }

  lemma {:induction false} StepKeepsInv<T>(s: Ring<T>, a: Action<T>)
    requires Inv(s) && Enabled(s, a)
    ensures Inv(Do(s, a).0)
  {
    match a
    case LoadOwnHead(_) => ProducerStep(s, a);
    case LoadTail(_) => ProducerStep(s, a);
    case WriteSlot => ProducerStep(s, a);
    case StoreHead => ProducerStep(s, a);
    case _ => ConsumerStep(s, a);
  }

  /** Each atomic step is a step of the FIFO of capacity Size-1, or no step of it. */
  lemma {:induction false} StepRefinesFifo<T>(s: Ring<T>, a: Action<T>)
    requires Inv(s) && Enabled(s, a)
    ensures Inv(Do(s, a).0)
    ensures FifoStep(s.size - 1, Contents(s), Do(s, a).1, Contents(Do(s, a).0))
  {
    StepKeepsInv(s, a);
  }

  /** The full answer is right about the tail that was loaded: with an up-to-date load it is
      given exactly when the queue is full, and `push` goes on only when there is room. */
  lemma {:induction false} FullAnswer<T>(s: Ring<T>, k: nat)
    requires Inv(s) && Enabled(s, LoadTail(k))
    ensures Do(s, LoadTail(k)).1.Full? <==> |s.pushed| - k == s.size - 1
    ensures k == |s.popped| ==> (Do(s, LoadTail(k)).1.Full? <==> |Contents(s)| == s.size - 1)
    ensures !Do(s, LoadTail(k)).1.Full? ==> |Contents(s)| < s.size - 1
  {
    FullTest(|s.pushed|, k, s.size);
  }

  lemma {:induction false} EmptyAnswer<T>(s: Ring<T>, k: nat)
    requires Inv(s) && Enabled(s, LoadHead(k))
    ensures Do(s, LoadHead(k)).1.Empty? <==> k == |s.popped|
    ensures k == |s.pushed| ==> (Do(s, LoadHead(k)).1.Empty? <==> Contents(s) == [])
    ensures !Do(s, LoadHead(k)).1.Empty? ==> Contents(s) != []
  {
    if |s.popped| < k {
      WindowIndices(|s.popped|, k, s.size);
    }
  }

  /** The slot about to be written is never the slot about to be read, and neither access
      is out of range. */
  lemma {:induction false} NoSlotRace<T>(s: Ring<T>)
    requires Inv(s)
    ensures s.producer.PHasRoom? ==> Enabled(s, WriteSlot)
    ensures s.consumer.CHasItem? ==> Enabled(s, ReadSlot)
    ensures s.producer.PHasRoom? && s.consumer.CHasItem? ==> s.producer.head != s.consumer.tail
  {
    if s.producer.PHasRoom? && s.consumer.CHasItem? {
      WindowIndices(|s.popped|, |s.pushed|, s.size);
    }
  }

  // Whole runs

  ghost predicate Init<T>(s: Ring<T>) {
    && s.size >= 2 && |s.buffer| == s.size
    && s.head == 0 && s.tail == 0 && s.tailSeen == 0 && s.headSeen == 0
    && s.producer == PIdle && s.consumer == CIdle
    && s.pushed == [] && s.popped == []
  }

  ghost predicate IsRun<T>(states: seq<Ring<T>>, actions: seq<Action<T>>) {
    && |states| == |actions| + 1
    && Init(states[0])
    && forall i :: 0 <= i < |actions| ==>
      Enabled(states[i], actions[i]) && states[i + 1] == Do(states[i], actions[i]).0
  }

  /** What the producer's and the consumer's callers saw, in order. */
  ghost function Outcomes<T>(states: seq<Ring<T>>, actions: seq<Action<T>>): seq<Outcome<T>>
    requires IsRun(states, actions)
  {
    seq(|actions|, i requires 0 <= i < |actions| => Do(states[i], actions[i]).1)
  }

  ghost function PushedItems<T>(outs: seq<Outcome<T>>): seq<T> {
    if outs == [] then []
    else PushedItems(outs[..|outs| - 1]) + if outs[|outs| - 1].Pushed? then [outs[|outs| - 1].item] else []
  }

  ghost function PoppedItems<T>(outs: seq<Outcome<T>>): seq<T> {
    if outs == [] then []
    else PoppedItems(outs[..|outs| - 1]) + if outs[|outs| - 1].Popped? then [outs[|outs| - 1].item] else []
  }

  lemma OutcomesGrow<T>(states: seq<Ring<T>>, actions: seq<Action<T>>)
    requires IsRun(states, actions) && actions != []
    ensures var n := |actions| - 1;
            IsRun(states[..n + 1], actions[..n]) &&
            Outcomes(states, actions) == Outcomes(states[..n + 1], actions[..n]) + [Do(states[n], actions[n]).1]
  {
    hide Inv, Do;
  }

  /** The history of a ring is what the calls were told. */
  ghost predicate Told<T>(s: Ring<T>, outs: seq<Outcome<T>>) {
    s.pushed == PushedItems(outs) && s.popped == PoppedItems(outs)
  }

  lemma ToldGrows<T>(s: Ring<T>, a: Action<T>, outs: seq<Outcome<T>>)
    requires Enabled(s, a) && Told(s, outs)
    ensures Told(Do(s, a).0, outs + [Do(s, a).1]) && Do(s, a).0.size == s.size
  {
    var out := Do(s, a).1;
    assert (outs + [out])[..|outs|] == outs;
  }

  lemma {:induction false} RunInv<T>(states: seq<Ring<T>>, actions: seq<Action<T>>)
    requires IsRun(states, actions)
    ensures var s := states[|actions|];
            Inv(s) && s.size == states[0].size && Told(s, Outcomes(states, actions))
  {
    var n := |actions|;
    if n > 0 {
      hide Inv, Do, Told, Outcomes, Init;
      OutcomesGrow(states, actions);
      RunInv(states[..n], actions[..n - 1]);
      StepKeepsInv(states[n - 1], actions[n - 1]);
      ToldGrows(states[n - 1], actions[n - 1], Outcomes(states[..n], actions[..n - 1]));
    }
  }

  /** In every interleaving the items taken are a prefix of the items accepted, in order and
      unchanged, and never more than Size-1 of them are waiting. */
  lemma RunIsFifo<T>(states: seq<Ring<T>>, actions: seq<Action<T>>)
    requires IsRun(states, actions)
    ensures PoppedItems(Outcomes(states, actions)) <= PushedItems(Outcomes(states, actions))
    ensures |PushedItems(Outcomes(states, actions))| - |PoppedItems(Outcomes(states, actions))| <= states[0].size - 1
  {
    RunInv(states, actions);
  }

  // size()

  /** The arithmetic of `size()` on a head and a tail that were loaded one after the other. */
  function SizeAnswer(size: nat, head: nat, tail: nat): int {
    if head >= tail then head - tail else size - (tail - head)
  }

  /** Exact when nothing moved between the two loads. */
  lemma {:induction false} SizeIsExact<T>(s: Ring<T>)
    requires Inv(s)
    ensures SizeAnswer(s.size, s.head, s.tail) == |Contents(s)|
  {
    var n := s.size;
    var a, b := |s.popped|, |s.pushed|;
    var d := b / n - a / n;
    assert b - a == n * d + (s.head - s.tail);
    if s.head >= s.tail {
      MultipleBound(n, d);
    } else {
      assert n * (d - 1) == n * d - n;
      MultipleBound(n, d - 1);
    }
  }

  /** Read by a third thread the two loads may come from different states of the run. The answer
      is the number of items that waited at the first load exactly if the tail was then what was
      loaded later, and the number that waited at the second load exactly if the head still was
      what had been loaded. */
  lemma {:induction false} SizeIsRightIff<T>(s1: Ring<T>, s2: Ring<T>)
    requires Inv(s1) && Inv(s2) && s1.size == s2.size
    ensures SizeAnswer(s1.size, s1.head, s2.tail) == |Contents(s1)| <==> s2.tail == s1.tail
    ensures SizeAnswer(s1.size, s1.head, s2.tail) == |Contents(s2)| <==> s2.head == s1.head
  {
    SizeIsExact(s1);
    SizeIsExact(s2);
    hide SlotsOk, ProducerOk, ConsumerOk;
  }

  /** Right or not, the answer fits the ring and leads from the tail to the head. */
  lemma {:induction false} SizeStaysInRange<T>(s1: Ring<T>, s2: Ring<T>)
    requires Inv(s1) && Inv(s2) && s1.size == s2.size
    ensures 0 <= SizeAnswer(s1.size, s1.head, s2.tail) <= s1.size - 1
    ensures (s2.tail + SizeAnswer(s1.size, s1.head, s2.tail)) % s1.size == s1.head
  {
    var x := s2.tail + SizeAnswer(s1.size, s1.head, s2.tail);
    Remainder(x, s1.size, if s1.head >= s2.tail then 0 else 1, s1.head);
  }
}

/** `RingBuffer<T, Size>` itself, executed without interruption. */
module RingBuffers {
  import opened RingProtocol

  /** `push` with no step of the other side in between, as protocol steps. */
  ghost function PushSteps<T>(s: Ring<T>, item: T): Ring<T>
    requires Inv(s) && s.producer.PIdle?
  {
    var s1 := Do(s, LoadOwnHead(item)).0;
    var (s2, answer) := Do(s1, LoadTail(|s.popped|));
    if answer.Full? then s2 else
    StepKeepsInv(s, LoadOwnHead(item));
    StepKeepsInv(s1, LoadTail(|s.popped|));
    Do(Do(s2, WriteSlot).0, StoreHead).0
  }

  ghost function PopSteps<T>(s: Ring<T>): Ring<T>
    requires Inv(s) && s.consumer.CIdle?
  {
    var s1 := Do(s, LoadOwnTail).0;
    var (s2, answer) := Do(s1, LoadHead(|s.pushed|));
    if answer.Empty? then s2 else
    StepKeepsInv(s, LoadOwnTail);
    StepKeepsInv(s1, LoadHead(|s.pushed|));
    Do(Do(s2, ReadSlot).0, StoreTail).0
  }

  /** With a push and a pop between its two loads, `size()` on the third thread answers 1
      although nothing was waiting at either load. */
  lemma SizeCanBeWrong<T>(x: T)
    ensures var s1 := Ring(2, [x, x], 0, 0, PIdle, CIdle, [], [], 0, 0);
            Init(s1) && Inv(s1) && Inv(PushSteps(s1, x)) &&
            var s2 := PopSteps(PushSteps(s1, x));
            Inv(s2) && Contents(s1) == [] == Contents(s2) && SizeAnswer(2, s1.head, s2.tail) == 1
  {
    PushIntoEmpty(x);
    PopTheOne(x);
  }

  lemma PushIntoEmpty<T>(x: T)
    ensures var s := Ring(2, [x, x], 0, 0, PIdle, CIdle, [], [], 0, 0);
            Inv(s) && PushSteps(s, x) == Ring(2, [x, x], 1, 0, PIdle, CIdle, [x], [], 0, 0)
  {
    var s := Ring(2, [x, x], 0, 0, PIdle, CIdle, [], [], 0, 0);
    assert PushSteps(s, x).buffer == [x, x];
  }

  lemma PopTheOne<T>(x: T)
    ensures var s := Ring(2, [x, x], 1, 0, PIdle, CIdle, [x], [], 0, 0);
            Inv(s) && PopSteps(s) == Ring(2, [x, x], 1, 1, PIdle, CIdle, [x], [x], 0, 1) && Inv(PopSteps(s))
  {
    var s := Ring(2, [x, x], 1, 0, PIdle, CIdle, [x], [], 0, 0);
    assert PopSteps(s).popped == [x];
  }

  /** What an uninterrupted push comes to. */
  lemma PushWhole<T>(s: Ring<T>, item: T)
    requires Inv(s) && s.producer.PIdle?
    ensures |s.popped| <= |s.pushed| && s.head < |s.buffer|
    ensures Inv(PushSteps(s, item)) && |PushSteps(s, item).popped| <= |PushSteps(s, item).pushed|
    ensures if (s.head + 1) % s.size == s.tail then
              |Contents(s)| == s.size - 1 && PushSteps(s, item) == s.(tailSeen := |s.popped|)
            else
              |Contents(s)| < s.size - 1 && Contents(PushSteps(s, item)) == Contents(s) + [item] &&
              PushSteps(s, item) == s.(buffer := s.buffer[s.head := item], head := (s.head + 1) % s.size,
                                       pushed := s.pushed + [item], tailSeen := |s.popped|)
  {
    var s1 := Do(s, LoadOwnHead(item)).0;
    StepKeepsInv(s, LoadOwnHead(item));
    FullAnswer(s1, |s.popped|);
    StepKeepsInv(s1, LoadTail(|s.popped|));
    hide SlotsOk;
    var (s2, answer) := Do(s1, LoadTail(|s.popped|));
    if !answer.Full? {
      StepKeepsInv(s2, WriteSlot);
      StepKeepsInv(Do(s2, WriteSlot).0, StoreHead);
    }
  }

  lemma PopWhole<T>(s: Ring<T>)
    requires Inv(s) && s.consumer.CIdle?
    ensures |s.popped| <= |s.pushed| && s.tail < |s.buffer|
    ensures Inv(PopSteps(s)) && |PopSteps(s).popped| <= |PopSteps(s).pushed|
    ensures if s.tail == s.head then
              Contents(s) == [] == Contents(PopSteps(s)) && PopSteps(s) == s.(headSeen := |s.pushed|)
            else
              Contents(s) != [] && Contents(PopSteps(s)) == Contents(s)[1..] && s.buffer[s.tail] == Contents(s)[0] &&
              PopSteps(s) == s.(tail := (s.tail + 1) % s.size, popped := s.popped + [s.buffer[s.tail]],
                                headSeen := |s.pushed|)
  {
    var s1 := Do(s, LoadOwnTail).0;
    if Contents(s) != [] {
      OldestIsInSlot(s);
    }
    hide SlotsOk, ProducerOk;
    StepKeepsInv(s, LoadOwnTail);
    EmptyAnswer(s1, |s.pushed|);
    PopKeepsInv(s);
  }

  lemma PopKeepsInv<T>(s: Ring<T>)
    requires Inv(s) && s.consumer.CIdle?
    ensures Inv(PopSteps(s))
  {
    var s1 := Do(s, LoadOwnTail).0;
    StepKeepsInv(s, LoadOwnTail);
    StepKeepsInv(s1, LoadHead(|s.pushed|));
    hide SlotsOk, ProducerOk;
    var (s2, answer) := Do(s1, LoadHead(|s.pushed|));
    if !answer.Empty? {
      StepKeepsInv(s2, ReadSlot);
      StepKeepsInv(Do(s2, ReadSlot).0, StoreTail);
    }
  }

  lemma OldestIsInSlot<T>(s: Ring<T>)
    requires Inv(s) && Contents(s) != []
    ensures s.tail < |s.buffer| && s.buffer[s.tail] == Contents(s)[0]
  {
    assert s.pushed[|s.popped|] == Contents(s)[0];
  }

  class RingBuffer<T(0)> {
    const size: nat
    const buffer: array<T>
    var head: nat
    var tail: nat
    ghost var pushed: seq<T>
    ghost var popped: seq<T>
    ghost var tailSeen: nat
    ghost var headSeen: nat

    ghost function View(): Ring<T>
      reads this, buffer
    {
      Ring(size, buffer[..], head, tail, PIdle, CIdle, pushed, popped, tailSeen, headSeen)
    }

    ghost predicate Valid()
      reads this, buffer
    {
      Inv(View())
    }

    ghost function Items(): seq<T>
      requires Valid()
      reads this, buffer
    {
      Contents(View())
    }

    constructor (size: nat)
      requires size >= 2
      ensures Valid() && fresh(buffer) && this.size == size && Init(View())
    {
      this.size := size;
      buffer := new T[size];
      head, tail := 0, 0;
      pushed, popped := [], [];
      tailSeen, headSeen := 0, 0;
    }

    method Push(item: T) returns (ok: bool)
      requires Valid()
      modifies this, buffer
      ensures Valid() && View() == PushSteps(old(View()), item)
      ensures ok <==> |old(Items())| < size - 1
      ensures Items() == if ok then old(Items()) + [item] else old(Items())
    {
      PushWhole(View(), item);
      hide Inv, PushSteps;
      var nextHead := (head + 1) % size;
      if nextHead == tail {
        tailSeen := |popped|;
        return false;
      }
      buffer[head] := item;
      head := nextHead;
      pushed, tailSeen := pushed + [item], |popped|;
      return true;
    }

    method Pop() returns (r: seq<T>)
      requires Valid()
      modifies this
      ensures Valid() && View() == PopSteps(old(View()))
      ensures r == if old(Items()) == [] then [] else [old(Items())[0]]
      ensures Items() == if old(Items()) == [] then [] else old(Items())[1..]
    {
      PopWhole(View());
      hide Inv, PopSteps;
      if tail == head {
        headSeen := |pushed|;
        return [];
      }
      var item := buffer[tail];
      tail := (tail + 1) % size;
      popped, headSeen := popped + [item], |pushed|;
      return [item];
    }

    method Size() returns (n: int)
      requires Valid()
      ensures n == |Items()|
    {
      SizeIsExact(View());
      if head >= tail {
        return head - tail;
      }
      return size - (tail - head);
    }
  }
}
