/**
 `LatencyTracker::Metric` (core/latency_tracker.hpp): two counters and a maximum that any
 number of threads update at the same time. A call of `record` is five kinds of atomic
 steps; calls may overlap in any way. Loads of the maximum may be stale: they return any
 value of its modification order that is not older than the last one the call saw.
 */
module LatencyMetric {
  /** The counters are 64-bit and wrap. */
  const WORD: nat := 0x1_0000_0000_0000_0000

  datatype Stage =
    | Added                 // total_ns updated
    | Counted               // count updated as well
    | Looping(seen: nat)    // current_max is maxes[seen]
    | Done

  datatype Call = Call(ns: nat, stage: Stage)

  /** `maxes` is the modification order of max_ns: its last element is the value stored now. */
  datatype Metric = Metric(total: nat, count: nat, maxes: seq<nat>, calls: seq<Call>)

  datatype Action =
    | Begin(ns: nat)
    | CountUp(call: nat)
    | LoadMax(call: nat, at: nat)
    | Stop(call: nat)                // the loop test fails
    | CasWin(call: nat)
    | CasLose(call: nat, at: nat)    // spurious when `at` is the index already seen

  predicate InLoop(s: Metric, i: nat) {
    i < |s.calls| && s.calls[i].stage.Looping? && s.calls[i].stage.seen < |s.maxes|
  }

  predicate Enabled(s: Metric, a: Action) {
    match a
    case Begin(ns) => ns < WORD
    case CountUp(i) => i < |s.calls| && s.calls[i].stage.Added?
    case LoadMax(i, at) => i < |s.calls| && s.calls[i].stage.Counted? && at < |s.maxes|
    case Stop(i) => InLoop(s, i) && s.calls[i].ns <= s.maxes[s.calls[i].stage.seen]
    case CasWin(i) =>
      InLoop(s, i) && s.calls[i].ns > s.maxes[s.calls[i].stage.seen] == s.maxes[|s.maxes| - 1]
    case CasLose(i, at) =>
      InLoop(s, i) && s.calls[i].ns > s.maxes[s.calls[i].stage.seen] && s.calls[i].stage.seen <= at < |s.maxes|
  }

  function MoveCall(s: Metric, i: nat, stage: Stage): Metric
    requires i < |s.calls|
  {
    s.(calls := s.calls[i := s.calls[i].(stage := stage)])
  }

  function Do(s: Metric, a: Action): Metric
    requires Enabled(s, a)
  {
    match a
    case Begin(ns) => s.(total := (s.total + ns) % WORD, calls := s.calls + [Call(ns, Added)])
    case CountUp(i) => MoveCall(s, i, Counted).(count := (s.count + 1) % WORD)
    case LoadMax(i, at) => MoveCall(s, i, Looping(at))
    case Stop(i) => MoveCall(s, i, Stage.Done)
    case CasWin(i) => MoveCall(s, i, Stage.Done).(maxes := s.maxes + [s.calls[i].ns])
    case CasLose(i, at) => MoveCall(s, i, Looping(at))
  }

  /** Sum of the samples of all calls begun. */
  function SumNs(calls: seq<Call>): nat {
    if calls == [] then 0 else SumNs(calls[..|calls| - 1]) + calls[|calls| - 1].ns
  }

  /** Number of calls that are past the count update. */
  function NumCounted(calls: seq<Call>): nat {
    if calls == [] then 0
    else NumCounted(calls[..|calls| - 1]) + if calls[|calls| - 1].stage.Added? then 0 else 1
  }

  function LargestNs(calls: seq<Call>): nat {
    if calls == [] then 0
    else
      var m := LargestNs(calls[..|calls| - 1]);
      if m < calls[|calls| - 1].ns then calls[|calls| - 1].ns else m
  }

  function Current(s: Metric): nat
    requires s.maxes != []
  {
    s.maxes[|s.maxes| - 1]
  }

  ghost predicate IsSample(calls: seq<Call>, ns: nat) {
    exists i :: 0 <= i < |calls| && calls[i].ns == ns
  }

  ghost predicate Inv(s: Metric) {
    && s.maxes != [] && s.maxes[0] == 0
    && (forall j, k :: 0 <= j < k < |s.maxes| ==> s.maxes[j] < s.maxes[k])
    && (forall j :: 0 < j < |s.maxes| ==> IsSample(s.calls, s.maxes[j]))
    && (forall i :: 0 <= i < |s.calls| && s.calls[i].stage.Looping? ==> s.calls[i].stage.seen < |s.maxes|)
    && (forall i :: 0 <= i < |s.calls| && s.calls[i].stage.Done? ==> s.calls[i].ns <= Current(s))
    && s.total == SumNs(s.calls) % WORD
    && s.count == NumCounted(s.calls) % WORD
  }

  ghost predicate Quiescent(s: Metric) {
    forall i :: 0 <= i < |s.calls| ==> s.calls[i].stage.Done?
  }

  lemma {:induction false} MoveSums(calls: seq<Call>, i: nat, stage: Stage)
    requires i < |calls| && !stage.Added?
    ensures var calls' := calls[i := calls[i].(stage := stage)];
            SumNs(calls') == SumNs(calls) &&
            NumCounted(calls') == NumCounted(calls) + if calls[i].stage.Added? then 1 else 0
  {
    var n := |calls| - 1;
    var calls' := calls[i := calls[i].(stage := stage)];
    if i < n {
      assert calls'[..n] == calls[..n][i := calls[i].(stage := stage)];
      MoveSums(calls[..n], i, stage);
    } else {
      assert calls'[..n] == calls[..n];
    }
  }

  lemma MoveKeepsSamples(calls: seq<Call>, i: nat, stage: Stage, ns: nat)
    requires i < |calls| && IsSample(calls, ns)
    ensures IsSample(calls[i := calls[i].(stage := stage)], ns)
  {
    var k :| 0 <= k < |calls| && calls[k].ns == ns;
    assert calls[i := calls[i].(stage := stage)][k].ns == ns;
  }

  lemma WrapAdd(x: nat, y: nat)
    ensures (x % WORD + y) % WORD == (x + y) % WORD
  {
    var q := (x % WORD + y) / WORD;
    assert x + y == WORD * (x / WORD + q) + (x % WORD + y) % WORD;
  }

  lemma BeginKeepsSample(s: Metric, ns: nat, sample: nat)
    requires ns < WORD && IsSample(s.calls, sample)
    ensures IsSample(Do(s, Begin(ns)).calls, sample)
  {
    var k :| 0 <= k < |s.calls| && s.calls[k].ns == sample;
    assert Do(s, Begin(ns)).calls[k].ns == sample;
  }

  lemma BeginKeepsInv(s: Metric, ns: nat)
    requires Inv(s) && ns < WORD
    ensures Inv(Do(s, Begin(ns)))
  {
    var s' := Do(s, Begin(ns));
    assert s'.calls[..|s.calls|] == s.calls;
    WrapAdd(SumNs(s.calls), ns);
    assert s'.total == SumNs(s'.calls) % WORD && NumCounted(s'.calls) == NumCounted(s.calls);
    hide SumNs, NumCounted, IsSample;
    forall j | 0 < j < |s.maxes| ensures IsSample(s'.calls, s'.maxes[j]) {
      BeginKeepsSample(s, ns, s.maxes[j]);
    }
  }

  lemma SamplesKept(s: Metric, a: Action)
    requires Inv(s) && Enabled(s, a) && !a.Begin?
    ensures forall j {:trigger Do(s, a).maxes[j]} :: 0 < j < |Do(s, a).maxes| ==>
            IsSample(Do(s, a).calls, Do(s, a).maxes[j])
  {
    var s' := Do(s, a);
    forall j | 0 < j < |s'.maxes| ensures IsSample(s'.calls, s'.maxes[j]) {
      if j < |s.maxes| {
        assert s'.maxes[j] == s.maxes[j];
        MoveKeepsSamples(s.calls, a.call, s'.calls[a.call].stage, s.maxes[j]);
      } else {
        assert s'.calls[a.call].ns == s'.maxes[j];
      }
    }
  }

  lemma CountersKept(s: Metric, a: Action)
    requires Inv(s) && Enabled(s, a) && !a.Begin?
    ensures Do(s, a).total == SumNs(Do(s, a).calls) % WORD
    ensures Do(s, a).count == NumCounted(Do(s, a).calls) % WORD
  {
    MoveSums(s.calls, a.call, Do(s, a).calls[a.call].stage);
    WrapAdd(NumCounted(s.calls), 1);
  }

  /** Stages stay within the modification order, and finished calls below the maximum. */
  lemma StagesKept(s: Metric, a: Action, i: nat)
    requires Inv(s) && Enabled(s, a) && !a.Begin? && i < |s.calls|
    ensures var s' := Do(s, a);
            s'.maxes != [] && |s'.calls| == |s.calls| &&
            (s'.calls[i].stage.Looping? ==> s'.calls[i].stage.seen < |s'.maxes|) &&
            (s'.calls[i].stage.Done? ==> s'.calls[i].ns <= Current(s'))
  {
    hide IsSample, SumNs, NumCounted;
    assert Current(s) <= Current(Do(s, a));
  }

  lemma MaxesKept(s: Metric, a: Action)
    requires Inv(s) && Enabled(s, a) && !a.Begin?
    ensures var ms := Do(s, a).maxes;
            ms != [] && ms[0] == 0 && forall j, k :: 0 <= j < k < |ms| ==> ms[j] < ms[k]
  {
    hide IsSample, SumNs, NumCounted;
  }

  lemma MoveKeepsInv(s: Metric, a: Action)
    requires Inv(s) && Enabled(s, a) && !a.Begin?
    ensures Inv(Do(s, a))
  {
    SamplesKept(s, a);
    CountersKept(s, a);
    MaxesKept(s, a);
    var s' := Do(s, a);
    forall i | 0 <= i < |s.calls|
      ensures s'.calls[i].stage.Looping? ==> s'.calls[i].stage.seen < |s'.maxes|
      ensures s'.calls[i].stage.Done? ==> s'.calls[i].ns <= Current(s')
    {
      StagesKept(s, a, i);
    }
    assert |s'.calls| == |s.calls|;
    hide Do, Enabled, IsSample, SumNs, NumCounted, Current;
  }

  lemma StepKeepsInv(s: Metric, a: Action)
    requires Inv(s) && Enabled(s, a)
    ensures Inv(Do(s, a))
  {
    if a.Begin? {
      BeginKeepsInv(s, a.ns);
    } else {
      MoveKeepsInv(s, a);
    }
  }

  // Runs

  const FRESH := Metric(0, 0, [0], [])

  ghost predicate IsRun(states: seq<Metric>, actions: seq<Action>) {
    && |states| == |actions| + 1
    && states[0] == FRESH
    && forall i :: 0 <= i < |actions| ==> Enabled(states[i], actions[i]) && states[i + 1] == Do(states[i], actions[i])
  }

  lemma {:induction false} RunInv(states: seq<Metric>, actions: seq<Action>, i: nat)
    requires IsRun(states, actions) && i <= |actions|
    ensures Inv(states[i])
  {
    if i > 0 {
      RunInv(states, actions, i - 1);
      StepKeepsInv(states[i - 1], actions[i - 1]);
    }
  }

  /** The stored maximum never goes down, and its whole modification order only grows. */
  lemma {:induction false} MaximumOnlyGrows(states: seq<Metric>, actions: seq<Action>, i: nat, j: nat)
    requires IsRun(states, actions) && i <= j <= |actions|
    ensures states[i].maxes != [] && states[j].maxes != []
    ensures states[i].maxes <= states[j].maxes
    ensures Current(states[i]) <= Current(states[j])
    decreases j - i
  {
    RunInv(states, actions, i);
    RunInv(states, actions, j);
    if i < j {
      MaximumOnlyGrows(states, actions, i, j - 1);
      assert states[j] == Do(states[j - 1], actions[j - 1]);
    }
  }

  lemma {:induction false} LargestBounds(calls: seq<Call>, i: nat)
    requires i < |calls|
    ensures calls[i].ns <= LargestNs(calls)
  {
    var n := |calls| - 1;
    if i < n {
      LargestBounds(calls[..n], i);
    }
  }

  lemma {:induction false} LargestIsSample(calls: seq<Call>)
    ensures LargestNs(calls) == 0 || IsSample(calls, LargestNs(calls))
  {
    if calls != [] {
      var n := |calls| - 1;
      LargestIsSample(calls[..n]);
      if LargestNs(calls) != 0 {
        if LargestNs(calls) == calls[n].ns {
          assert IsSample(calls, LargestNs(calls));
        } else {
          var k :| 0 <= k < n && calls[..n][k].ns == LargestNs(calls);
          assert calls[k].ns == LargestNs(calls);
        }
      }
    }
  }

  /** At every moment the maximum is 0 or a sample of some begun call, and it is at least
      every sample whose call has returned. */
  lemma MaximumIsSound(s: Metric)
    requires Inv(s)
    ensures Current(s) == 0 || IsSample(s.calls, Current(s))
    ensures Current(s) <= LargestNs(s.calls)
    ensures forall i :: 0 <= i < |s.calls| && s.calls[i].stage.Done? ==> s.calls[i].ns <= Current(s)
  {
    if Current(s) != 0 {
      assert IsSample(s.calls, s.maxes[|s.maxes| - 1]);
      var k :| 0 <= k < |s.calls| && s.calls[k].ns == Current(s);
      LargestBounds(s.calls, k);
    }
  }

  lemma {:induction false} AllCounted(calls: seq<Call>)
    requires forall i :: 0 <= i < |calls| ==> calls[i].stage.Done?
    ensures NumCounted(calls) == |calls|
  {
    if calls != [] {
      AllCounted(calls[..|calls| - 1]);
    }
  }

  /** Once no call is in flight nothing has been lost: the maximum is the largest sample and
      the counters are the sum and the number of samples, modulo the word size. */
  lemma QuiescentIsExact(s: Metric)
    requires Inv(s) && Quiescent(s)
    ensures Current(s) == LargestNs(s.calls)
    ensures s.total == SumNs(s.calls) % WORD
    ensures s.count == |s.calls| % WORD
  {
    MaximumIsSound(s);
    AllCounted(s.calls);
    LargestIsSample(s.calls);
    if LargestNs(s.calls) != 0 {
      var k :| 0 <= k < |s.calls| && s.calls[k].ns == LargestNs(s.calls);
      assert s.calls[k].stage.Done?;
    }
  }

  // get_stats while other threads record

  lemma {:induction false} CallsGrow(states: seq<Metric>, actions: seq<Action>, i: nat, j: nat)
    requires IsRun(states, actions) && i <= j <= |actions|
    ensures |states[i].calls| <= |states[j].calls|
    ensures SumNs(states[i].calls) <= SumNs(states[j].calls)
    decreases j - i
  {
    if i < j {
      CallsGrow(states, actions, i, j - 1);
      CallsGrowByStep(states[j - 1], actions[j - 1]);
    }
  }

  lemma CallsGrowByStep(s: Metric, a: Action)
    requires Enabled(s, a)
    ensures |s.calls| <= |Do(s, a).calls| && SumNs(s.calls) <= SumNs(Do(s, a).calls)
  {
    if a.Begin? {
      assert Do(s, a).calls[..|s.calls|] == s.calls;
    } else {
      MoveSums(s.calls, a.call, Do(s, a).calls[a.call].stage);
    }
  }

  lemma {:induction false} CountedAtMost(calls: seq<Call>)
    ensures NumCounted(calls) <= |calls|
  {
    if calls != [] {
      CountedAtMost(calls[..|calls| - 1]);
    }
  }

  /** `get_stats` loads the count, the total and the maximum, with any steps of other threads in
      between. The loads are relaxed, so each may be of any moment, in any order. Every value is right
      for its own moment. A total no older than the count is that of at least as many calls as were
      counted, and contains theirs; a maximum no older than the count is at least every sample
      finished by then. */
  lemma StatsWhileRecording(states: seq<Metric>, actions: seq<Action>, i: nat, j: nat, k: nat)
    requires IsRun(states, actions) && i <= |actions| && j <= |actions| && k <= |actions|
    ensures states[i].count == NumCounted(states[i].calls) % WORD
    ensures states[j].total == SumNs(states[j].calls) % WORD
    ensures states[k].maxes != [] && (Current(states[k]) == 0 || IsSample(states[k].calls, Current(states[k])))
    ensures i <= j ==>
      NumCounted(states[i].calls) <= |states[j].calls| && SumNs(states[i].calls) <= SumNs(states[j].calls)
    ensures i <= k ==> forall c :: c in states[i].calls && c.stage.Done? ==> c.ns <= Current(states[k])
  {
    RunInv(states, actions, i);
    RunInv(states, actions, j);
    RunInv(states, actions, k);
    CountedAtMost(states[i].calls);
    MaximumIsSound(states[k]);
    if i <= j {
      CallsGrow(states, actions, i, j);
    }
    if i <= k {
      MaximumOnlyGrows(states, actions, i, k);
    }
    hide SumNs, NumCounted, IsSample, Do;
  }

  // The compare-exchange loop makes progress

  /** How often call `i` lost a compare-exchange because the maximum had really changed. */
  ghost function RealLosses(states: seq<Metric>, actions: seq<Action>, i: nat): nat
    requires IsRun(states, actions)
    decreases |actions|
  {
    if actions == [] then 0 else
    var n := |actions| - 1;
    var a, s := actions[n], states[n];
    RealLosses(states[..n + 1], actions[..n], i) +
    if a.CasLose? && a.call == i && a.at != s.calls[i].stage.seen then 1 else 0
  }

  /** Each such loss leaves the call with a strictly larger current_max, so a call loses at
      most as often as the maximum has been raised. */
  lemma LossRaisesCurrentMax(s: Metric, i: nat, at: nat)
    requires Inv(s) && Enabled(s, CasLose(i, at)) && at != s.calls[i].stage.seen
    ensures var after := Do(s, CasLose(i, at)).calls[i].stage;
            after.Looping? && s.maxes[after.seen] > s.maxes[s.calls[i].stage.seen]
  {
  }

  ghost function LossCap(s: Metric, i: nat): int {
    if i >= |s.calls| then 0 else
    match s.calls[i].stage
    case Looping(seen) => seen
    case Done => |s.maxes| - 1
    case _ => 0
  }

  lemma LossCapGrows(s: Metric, a: Action, i: nat)
    requires Inv(s) && Enabled(s, a)
    ensures LossCap(s, i) + (if a.CasLose? && a.call == i && a.at != s.calls[i].stage.seen then 1 else 0)
         <= LossCap(Do(s, a), i)
  {
  }

  lemma LossCapIsBounded(s: Metric, i: nat)
    requires Inv(s)
    ensures 0 <= LossCap(s, i) <= |s.maxes| - 1
  {
  }

  lemma {:induction false} LossesAreBounded(states: seq<Metric>, actions: seq<Action>, i: nat)
    requires IsRun(states, actions)
    ensures RealLosses(states, actions, i) <= LossCap(states[|actions|], i) <= |states[|actions|].maxes| - 1
    decreases |actions|
  {
    var n := |actions|;
    RunInv(states, actions, n);
    LossCapIsBounded(states[n], i);
    if n > 0 {
      RunInv(states, actions, n - 1);
      hide Inv, Do, LossCap;
      LossesAreBounded(states[..n], actions[..n - 1], i);
      LossCapGrows(states[n - 1], actions[n - 1], i);
    }
  }

  /** The state after a call of `record` that nothing interrupts. */
  ghost function Recorded(s: Metric, ns: nat): Metric
    requires s.maxes != []
  {
    Metric((s.total + ns) % WORD, (s.count + 1) % WORD,
           if ns > Current(s) then s.maxes + [ns] else s.maxes,
           s.calls + [Call(ns, Stage.Done)])
  }

  /** The call of `record` that has loaded the current maximum and not yet compared. */
  ghost function Started(s: Metric, ns: nat): Metric
    requires s.maxes != [] && ns < WORD
  {
    var s2 := Do(Do(s, Begin(ns)), CountUp(|s.calls|));
    Do(s2, LoadMax(|s.calls|, |s.maxes| - 1))
  }

  lemma StartedKeepsInv(s: Metric, ns: nat)
    requires Inv(s) && ns < WORD
    ensures Inv(Started(s, ns))
  {
    var s1 := Do(s, Begin(ns));
    StepKeepsInv(s, Begin(ns));
    var s2 := Do(s1, CountUp(|s.calls|));
    StepKeepsInv(s1, CountUp(|s.calls|));
    StepKeepsInv(s2, LoadMax(|s.calls|, |s.maxes| - 1));
  }

  /** It is reached by the call's own steps. */
  lemma {:induction false} RecordedByOwnSteps(s: Metric, ns: nat)
    requires Inv(s) && ns < WORD
    ensures Inv(Recorded(s, ns))
  {
    var i := |s.calls|;
    assert s.maxes != [];
    StartedKeepsInv(s, ns);
    var s3 := StartedIs(s, ns);
    hide Inv, Started, SumNs, NumCounted;
    assert s3.calls[i] == Call(ns, Looping(|s.maxes| - 1));
    if ns > Current(s) {
      StepKeepsInv(s3, CasWin(i));
    } else {
      StepKeepsInv(s3, Stop(i));
    }
    assert s3.calls[i := Call(ns, Stage.Done)] == s.calls + [Call(ns, Stage.Done)];
  }

  lemma StartedIs(s: Metric, ns: nat) returns (s3: Metric)
    requires s.maxes != [] && ns < WORD
    ensures s3 == Started(s, ns)
    ensures s3 == Metric((s.total + ns) % WORD, (s.count + 1) % WORD, s.maxes,
                         s.calls + [Call(ns, Looping(|s.maxes| - 1))])
  {
    s3 := Started(s, ns);
    assert s3.calls == s.calls + [Call(ns, Looping(|s.maxes| - 1))];
  }

  lemma RecordedIsQuiescent(s: Metric, ns: nat)
    requires Inv(s) && Quiescent(s) && ns < WORD
    ensures s.maxes != []
    ensures var s' := Recorded(s, ns);
            Inv(s') && Quiescent(s') && s'.maxes != [] &&
            Current(s') == (if ns > Current(s) then ns else Current(s)) &&
            s'.total == (s.total + ns) % WORD && s'.count == (s.count + 1) % WORD &&
            s'.calls == s.calls + [Call(ns, Stage.Done)]
  {
    RecordedByOwnSteps(s, ns);
    hide Inv;
  }

  /** The metric object; `maxes` and `calls` record its history. */
  class MetricCell {
    var totalNs: nat
    var maxNs: nat
    var count: nat
    ghost var maxes: seq<nat>
    ghost var calls: seq<Call>

    ghost function View(): Metric
      reads this
    {
      Metric(totalNs, count, maxes, calls)
    }

    ghost predicate Valid()
      reads this
    {
      Inv(View()) && Quiescent(View()) && maxNs == Current(View())
    }

    constructor ()
      ensures Valid() && calls == []
    {
      totalNs, maxNs, count := 0, 0, 0;
      maxes, calls := [0], [];
    }

    /** `record` with no other call in flight. */
    method Record(ns: nat, spurious: nat)
      requires Valid() && ns < WORD
      modifies this
      ensures Valid()
      ensures calls == old(calls) + [Call(ns, Stage.Done)]
      ensures View() == Recorded(old(View()), ns)
    {
      RecordedIsQuiescent(View(), ns);
      hide Inv, Quiescent, Recorded;
      ghost var after := Recorded(View(), ns);
      totalNs := (totalNs + ns) % WORD;
      count := (count + 1) % WORD;
      RaiseMax(ns, spurious);
      maxes, calls := after.maxes, after.calls;
    }

    /** The loop of `record`; the weak compare-exchange fails spuriously `spurious` times before it
        stores. */
    method RaiseMax(ns: nat, spurious: nat)
      modifies `maxNs
      ensures maxNs == if ns > old(maxNs) then ns else old(maxNs)
    {
      var currentMax := maxNs;
      var budget := spurious;
      var stored := false;
      while ns > currentMax && !stored
        invariant !stored ==> currentMax == maxNs == old(maxNs)
        invariant stored ==> ns > old(maxNs) && maxNs == ns
        decreases !stored, budget
      {
        if budget > 0 {
          currentMax := maxNs;
          budget := budget - 1;
        } else {
          maxNs := ns;
          stored := true;
        }
      }
    }

    /** `get_stats`: average, maximum and count of everything recorded. */
    method GetStats() returns (avg: real, max: nat, n: nat)
      requires Valid()
      ensures n == |calls| % WORD
      ensures n == 0 ==> avg == 0.0 && max == 0
      ensures n != 0 ==> avg == (SumNs(calls) % WORD) as real / n as real && max == LargestNs(calls)
    {
      QuiescentIsExact(View());
      if count == 0 {
        return 0.0, 0, 0;
      }
      return totalNs as real / count as real, maxNs, count;
    }
  }
}
