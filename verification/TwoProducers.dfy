/**
 Why the ring is for one producer: what can go wrong when two threads push.
 */
module TwoProducers {
  import opened RingProtocol

  /** These atomic steps lead from `s` to `s'`. */
  ghost predicate Leads<T>(s: Ring<T>, actions: seq<Action<T>>, s': Ring<T>)
    decreases |actions|
  {
    if actions == [] then s' == s
    else Enabled(s, actions[0]) && Leads(Do(s, actions[0]).0, actions[1..], s')
  }

  /** One thread stops after writing its slot, another pushes to
      the end, and the first then finishes. With room for both at the start, both are told that
      their push succeeded, yet the ring is left as if there had been the second push alone. */
  lemma {:induction false} TwoProducersLoseAnItem<T>(s: Ring<T>, x: T, y: T)
      returns (first: Ring<T>, second: Ring<T>, last: Ring<T>)
    requires Inv(s) && s.producer.PIdle? && |Contents(s)| < s.size - 1
    ensures Leads(s, [LoadOwnHead(x), LoadTail(|s.popped|), WriteSlot], first)
    ensures Leads(first.(producer := PIdle), [LoadOwnHead(y), LoadTail(|s.popped|), WriteSlot, StoreHead], second)
    ensures Leads(second.(producer := first.producer), [StoreHead], last)
    ensures last == second.(pushed := s.pushed + [y, x]) && second.pushed == s.pushed + [y]
    ensures Inv(second) && !Inv(last)
    ensures SizeAnswer(last.size, last.head, last.tail) == |Contents(s)| + 1 == |Contents(last)| - 1
  {
    hide Leads, Do, Enabled, Inv;
    first := WriteFirst(s, x);
    var again := first.(producer := PIdle);
    AbandonKeepsInv(first);
    var wrote := WriteFirst(again, y);
    second := Finish(wrote);
    StepKeepsInv(wrote, StoreHead);
    var steps := [LoadOwnHead(y), LoadTail(|s.popped|), WriteSlot];
    LeadsOn(again, steps, wrote, StoreHead);
    assert steps + [StoreHead] == [LoadOwnHead(y), LoadTail(|s.popped|), WriteSlot, StoreHead];
    var back := second.(producer := first.producer);
    last := Finish(back);
    LeadsByOne(back, StoreHead);
    assert last == second.(pushed := s.pushed + [y, x]);
    UnstoredIsBroken(second, last.pushed);
    SizeIsExact(second);
  }

  /** The store that ends a push. */
  lemma Finish<T>(s: Ring<T>) returns (done: Ring<T>)
    requires s.size >= 2 && s.producer.PWrote?
    ensures Enabled(s, StoreHead) && done == Do(s, StoreHead).0
    ensures done ==
      s.(producer := PIdle, head := (s.producer.head + 1) % s.size, pushed := s.pushed + [s.producer.item])
  {
    done := Do(s, StoreHead).0;
  }

  lemma AbandonKeepsInv<T>(s: Ring<T>)
    requires Inv(s)
    ensures Inv(s.(producer := PIdle))
  {
  }

  lemma UnstoredIsBroken<T>(s: Ring<T>, pushed: seq<T>)
    requires Inv(s) && |pushed| == |s.pushed| + 1
    ensures !Inv(s.(pushed := pushed))
  {
    WindowIndices(|s.pushed|, |s.pushed| + 1, s.size);
    hide ConsumerOk, ProducerOk, SlotsOk;
  }

  lemma LeadsByOne<T>(s: Ring<T>, a: Action<T>)
    requires Enabled(s, a)
    ensures Leads(s, [a], Do(s, a).0)
  {
    assert [a][1..] == [];
  }

  lemma WriteFirst<T>(s: Ring<T>, x: T) returns (wrote: Ring<T>)
    requires Inv(s) && s.producer.PIdle? && |Contents(s)| < s.size - 1
    ensures Leads(s, [LoadOwnHead(x), LoadTail(|s.popped|), WriteSlot], wrote) && Inv(wrote)
    ensures wrote == s.(producer := PWrote(x, s.head), tailSeen := |s.popped|, buffer := s.buffer[s.head := x])
  {
    var k := |s.popped|;
    var s1 := Do(s, LoadOwnHead(x)).0;
    StepKeepsInv(s, LoadOwnHead(x));
    FullAnswer(s1, k);
    StepKeepsInv(s1, LoadTail(k));
    var s2 := Do(s1, LoadTail(k)).0;
    StepKeepsInv(s2, WriteSlot);
    wrote := Do(s2, WriteSlot).0;
    LeadsByOne(s, LoadOwnHead(x));
    LeadsOn(s, [LoadOwnHead(x)], s1, LoadTail(k));
    LeadsOn(s, [LoadOwnHead(x), LoadTail(k)], s2, WriteSlot);
    hide Leads, SlotsOk, Do;
  }

  lemma {:induction false} LeadsOn<T>(s: Ring<T>, actions: seq<Action<T>>, s': Ring<T>, a: Action<T>)
    requires Leads(s, actions, s') && Enabled(s', a)
    ensures Leads(s, actions + [a], Do(s', a).0)
    decreases |actions|
  {
    hide Do;
    if actions == [] {
      assert actions + [a] == [a] && [a][1..] == [];
    } else {
      LeadsOn(Do(s, actions[0]).0, actions[1..], s', a);
      assert (actions + [a])[1..] == actions[1..] + [a];
    }
  }
}
