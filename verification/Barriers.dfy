/** The owner's cached minimum over its named barriers.

    `Min` keeps the type of the smallest barrier and recomputes it only when the `dirty` flag
    is set.  The cache is coherent as long as `Min` is never asked about an empty map. */
module Barriers {
  import opened Prelude

  const MAX_UINT64: nat := 0xFFFF_FFFF_FFFF_FFFF

  datatype BarrierType = SyncPointBarrier | FinishBarrier

  type Inner = map<BarrierType, nat>

  /** The value of the cache: the map, the dirty flag and the remembered type. */
  datatype Cache = Cache(inner: Inner, dirty: bool, min: BarrierType)

  /** Go reads a missing key as zero. */
  function Lookup(inner: Inner, tp: BarrierType): nat {
    if tp in inner then inner[tp] else 0
  }

  predicate InRange(inner: Inner) {
    forall tp <- inner :: inner[tp] <= MAX_UINT64
  }

  /** `tp` holds the true minimum of the map. */
  predicate HoldsMin(inner: Inner, tp: BarrierType) {
    tp in inner && forall other <- inner :: inner[tp] <= inner[other]
  }

  /** A clean cache remembers a type that really holds the minimum. */
  predicate Coherent(c: Cache) {
    !c.dirty ==> HoldsMin(c.inner, c.min)
  }

  /** The calls a user of the structure can make. */
  datatype Call = Update(tp: BarrierType, ts: nat) | Remove(tp: BarrierType) | Min

  function AfterUpdate(c: Cache, tp: BarrierType, ts: nat): Cache {
    Cache(c.inner[tp := ts],
          c.dirty || tp == c.min || ts <= Lookup(c.inner, c.min),
          c.min)
  }

  function AfterRemove(c: Cache, tp: BarrierType): Cache {
    Cache(c.inner - {tp}, true, c.min)
  }

  /** What a call of `Min` may return and leave behind: a clean cache answers from memory, a
      dirty one recomputes, and on ties Go's map order may select any type that holds the minimum.
      On an empty map the recomputation answers the first type and the largest ts. */
  predicate MinResult(c: Cache, c': Cache, tp: BarrierType, ts: nat) {
    if !c.dirty then
      c' == c && tp == c.min && ts == Lookup(c.inner, c.min)
    else if c.inner == map[] then
      c' == Cache(c.inner, false, SyncPointBarrier) && tp == SyncPointBarrier && ts == MAX_UINT64
    else
      HoldsMin(c.inner, tp) && ts == c.inner[tp] && c' == Cache(c.inner, false, tp)
  }

  class BarrierCache {
    var inner: Inner
    var dirty: bool
    var min: BarrierType

    ghost function Value(): Cache
      reads this
    {
      Cache(inner, dirty, min)
    }

    constructor ()
      ensures Value() == Cache(map[], true, SyncPointBarrier)
    {
      inner, dirty, min := map[], true, SyncPointBarrier;
    }

    method Update(tp: BarrierType, ts: nat)
      modifies this
      ensures Value() == AfterUpdate(old(Value()), tp, ts)
    {
      if !dirty && (tp == min || ts <= Lookup(inner, min)) {
        dirty := true;
      }
      inner := inner[tp := ts];
    }

    method Min() returns (tp: BarrierType, ts: nat)
      requires InRange(inner)
      modifies this
      ensures MinResult(old(Value()), Value(), tp, ts)
    {
      if !dirty {
        return min, Lookup(inner, min);
      }
      tp, ts := CalcMin();
      min := tp;
      dirty := false;
    }

    /** The read-only scan over the map, in any order. */
    method CalcMin() returns (tp: BarrierType, ts: nat)
      requires InRange(inner)
      ensures inner == map[] ==> tp == SyncPointBarrier && ts == MAX_UINT64
      ensures inner != map[] ==> HoldsMin(inner, tp) && ts == inner[tp]
    {
      tp, ts := SyncPointBarrier, MAX_UINT64;
      var rest := inner.Keys;
      while rest != {}
        invariant rest <= inner.Keys
        invariant rest == inner.Keys ==> tp == SyncPointBarrier && ts == MAX_UINT64
        invariant rest != inner.Keys ==> tp in inner && ts == inner[tp]
        invariant forall k <- inner.Keys - rest :: ts <= inner[k]
      {
        var br :| br in rest;
        if inner[br] <= ts {
          tp, ts := br, inner[br];
        }
        rest := rest - {br};
      }
    }

    method Remove(tp: BarrierType)
      modifies this
      ensures Value() == AfterRemove(old(Value()), tp)
    {
      inner := inner - {tp};
      dirty := true;
    }
  }

  /** One call of a run; `ans` is what `Min` answered, ignored for the other calls. */
  predicate Step(c: Cache, call: Call, c': Cache, ans: (BarrierType, nat)) {
    match call
    case Update(tp, ts) => ts <= MAX_UINT64 && c' == AfterUpdate(c, tp, ts)
    case Remove(tp) => c' == AfterRemove(c, tp)
    case Min => MinResult(c, c', ans.0, ans.1)
  }

  /** A run of calls from a fresh structure. */
  predicate Run(states: seq<Cache>, calls: seq<Call>, answers: seq<(BarrierType, nat)>) {
    && |states| == |calls| + 1 == |answers| + 1
    && states[0] == Cache(map[], true, SyncPointBarrier)
    && forall i | 0 <= i < |calls| :: Step(states[i], calls[i], states[i + 1], answers[i])
  }

  /** The barrier a run of calls has left registered for a type. */
  function Registered(calls: seq<Call>, tp: BarrierType): Option<nat> {
    if calls == [] then None
    else
      match calls[|calls| - 1]
      case Update(t, ts) => if t == tp then Some(ts) else Registered(calls[..|calls| - 1], tp)
      case Remove(t) => if t == tp then None else Registered(calls[..|calls| - 1], tp)
      case Min => Registered(calls[..|calls| - 1], tp)
  }

  /** The map holds for each type what was last registered and not removed since. */
  lemma {:induction false} MapIsRegistered(states: seq<Cache>, calls: seq<Call>, answers: seq<(BarrierType, nat)>,
                                           n: nat, tp: BarrierType)
    requires Run(states, calls, answers) && n <= |calls|
    ensures Registered(calls[..n], tp) == if tp in states[n].inner then Some(states[n].inner[tp]) else None
    decreases n
  {
    if n > 0 {
      MapIsRegistered(states, calls, answers, n - 1, tp);
      assert calls[..n][..n - 1] == calls[..n - 1];
      assert Step(states[n - 1], calls[n - 1], states[n], answers[n - 1]);
    }
  }

  /** The discipline the owner follows: it registers the finish barrier before asking. */
  predicate NeverAsksEmpty(states: seq<Cache>, calls: seq<Call>)
    requires |states| == |calls| + 1
  {
    forall i | 0 <= i < |calls| :: calls[i].Min? ==> states[i].inner != map[]
  }

  lemma {:induction false} RunKeepsCoherence(states: seq<Cache>, calls: seq<Call>,
                                             answers: seq<(BarrierType, nat)>, n: nat)
    requires Run(states, calls, answers) && NeverAsksEmpty(states, calls) && n <= |calls|
    ensures Coherent(states[n])
    decreases n
  {
    if n > 0 {
      RunKeepsCoherence(states, calls, answers, n - 1);
      assert Step(states[n - 1], calls[n - 1], states[n], answers[n - 1]);
    }
  }

  /** Over any run that never asks about an empty map, every cached answer is the true minimum
      and the returned type holds it. */
  lemma CachedMinimumIsTrue(states: seq<Cache>, calls: seq<Call>,
                            answers: seq<(BarrierType, nat)>, n: nat)
    requires Run(states, calls, answers) && NeverAsksEmpty(states, calls)
    requires n < |calls| && calls[n].Min?
    ensures HoldsMin(states[n].inner, answers[n].0)
    ensures answers[n].1 == states[n].inner[answers[n].0]
    ensures states[n + 1].inner == states[n].inner
  {
    RunKeepsCoherence(states, calls, answers, n);
    assert Step(states[n], calls[n], states[n + 1], answers[n]);
  }

  /** Asking is safe exactly when the map is non-empty: on a coherent cache `Min` answers the true
      minimum, and leaves a coherent cache, if and only if there is a barrier to report. */
  lemma MinSafeIffNonEmpty(c: Cache, c': Cache, tp: BarrierType, ts: nat)
    requires Coherent(c) && MinResult(c, c', tp, ts)
    ensures (HoldsMin(c.inner, tp) && ts == Lookup(c.inner, tp) && Coherent(c')) <==> c.inner != map[]
  {
    if c.inner != map[] {
      var k :| k in c.inner;
    }
  }

  /** What goes wrong otherwise: two questions on an empty map, then a finish barrier; the third
      answer is zero although the map is non-empty and holds 5. */
  lemma EmptyMapPoisonsCache() returns (states: seq<Cache>, calls: seq<Call>, answers: seq<(BarrierType, nat)>)
    ensures Run(states, calls, answers)
    ensures |calls| == 4 && calls[3] == Min && states[3].inner == map[FinishBarrier := 5]
    ensures answers[0].1 == MAX_UINT64 && answers[1].1 == 0 && answers[3] == (SyncPointBarrier, 0)
  {
    var c0 := Cache(map[], true, SyncPointBarrier);
    var c1 := Cache(map[], false, SyncPointBarrier);
    var c3 := Cache(map[FinishBarrier := 5], false, SyncPointBarrier);
    states := [c0, c1, c1, c3, c3];
    calls := [Min, Min, Update(FinishBarrier, 5), Min];
    answers := [(SyncPointBarrier, MAX_UINT64), (SyncPointBarrier, 0), (SyncPointBarrier, 0), (SyncPointBarrier, 0)];
    assert Step(states[0], calls[0], states[1], answers[0]);
    assert Step(states[1], calls[1], states[2], answers[1]);
    assert c1.inner[FinishBarrier := 5] == c3.inner;
    assert Step(states[2], calls[2], states[3], answers[2]);
    assert Step(states[3], calls[3], states[4], answers[3]);
  }
}
