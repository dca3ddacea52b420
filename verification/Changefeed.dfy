/** The changefeed's own barriers: sync points and the finish barrier, beside the DDL barrier. */
module Changefeed {
  import opened Barriers
  import opened DdlBarrier
  import SyncPoint

  /** The barrier cache, the last sync point handed to the sink, the sync points written so far, and
      whether the changefeed was marked finished. */
  datatype Feed = Feed(cache: Cache, lastSync: nat, emitted: seq<nat>, finished: bool)

  function AfterMin(c: Cache, tp: BarrierType): Cache {
    if c.dirty then Cache(c.inner, false, tp) else c
  }

  /** Writing the sync point is tried, and fails.  The sink has already noted it as its last one. */
  predicate Fails(f: Feed, checkpointTs: nat, tp: BarrierType, ts: nat, sinkOk: bool) {
    ts == checkpointTs && tp == SyncPointBarrier && ts != f.lastSync && !sinkOk
  }

  /** One call of `handleBarrier` at a checkpoint, with `(tp, ts)` the answer of `Min` and `sinkOk` whether
      the downstream takes a sync point. */
  function AfterHandle(f: Feed, checkpointTs: nat, intervalNs: nat, tp: BarrierType, ts: nat, sinkOk: bool): Feed {
    var c := AfterMin(f.cache, tp);
    if ts != checkpointTs then f.(cache := c)
    else if Fails(f, checkpointTs, tp, ts, sinkOk) then f.(cache := c, lastSync := ts)
    else match tp
      case SyncPointBarrier =>
        Feed(AfterUpdate(c, SyncPointBarrier, SyncPoint.Next(ts, intervalNs)), ts,
             if ts == f.lastSync then f.emitted else f.emitted + [ts], f.finished)
      case FinishBarrier => f.(cache := c, finished := true)
  }

  class ChangefeedImpl {
    const barriers: BarrierCache
    const intervalNs: nat
    var lastSync: nat
    var emitted: seq<nat>
    var finished: bool

    ghost function Value(): Feed
      reads this, barriers
    {
      Feed(barriers.Value(), lastSync, emitted, finished)
    }

    /** The barrier part of `initialize`. */
    constructor (resolvedTs: nat, enableSyncPoint: bool, intervalNs: nat, targetTs: nat)
      requires enableSyncPoint ==> intervalNs > 0
      ensures fresh(barriers) && this.intervalNs == intervalNs
      ensures !finished && emitted == [] && lastSync == 0
      ensures barriers.dirty
      ensures barriers.inner == if enableSyncPoint
                then map[SyncPointBarrier := SyncPoint.First(resolvedTs, intervalNs), FinishBarrier := targetTs]
                else map[FinishBarrier := targetTs]
    {
      barriers := new BarrierCache();
      this.intervalNs, lastSync, emitted, finished := intervalNs, 0, [], false;
      new;
      if enableSyncPoint {
        barriers.Update(SyncPointBarrier, SyncPoint.First(resolvedTs, intervalNs));
      }
      barriers.Update(FinishBarrier, targetTs);
    }

    /** `ok` is false for the error that a failed sync point returns. */
    method HandleBarrier(checkpointTs: nat, b: Barrier, sinkOk: bool)
      returns (ok: bool, b': Barrier, ghost tp: BarrierType, ghost ts: nat)
      requires barriers.inner != map[] && InRange(barriers.inner)
      modifies this, barriers
      ensures MinResult(old(barriers.Value()), AfterMin(old(barriers.Value()), tp), tp, ts)
      ensures ok <==> !Fails(old(Value()), checkpointTs, tp, ts, sinkOk)
      ensures Value() == AfterHandle(old(Value()), checkpointTs, intervalNs, tp, ts, sinkOk)
      ensures b' == if ok then LowerBarrier(b, ts) else b
      ensures ok ==> b'.globalTs <= ts && b'.minTableTs <= ts
      ensures ok && b.globalTs <= ts ==> b'.globalTs == b.globalTs
      ensures ok && b.minTableTs <= ts ==> b'.minTableTs == b.minTableTs
      ensures b'.redoTs == b.redoTs && b'.tables == b.tables
    {
      ok, b' := true, b;
      var barrierTp, barrierTs := barriers.Min();
      tp, ts := barrierTp, barrierTs;
      if barrierTs == checkpointTs {
        match barrierTp {
          case SyncPointBarrier =>
            var nextTs := SyncPoint.Next(barrierTs, intervalNs);
            if barrierTs != lastSync {
              lastSync := barrierTs;
              if !sinkOk {
                return false, b, tp, ts;
              }
              emitted := emitted + [barrierTs];
            }
            barriers.Update(SyncPointBarrier, nextTs);
          case FinishBarrier =>
            finished := true;
        }
      }
      if b'.globalTs > barrierTs {
        b' := b'.(globalTs := barrierTs);
      }
      if b'.minTableTs > barrierTs {
        b' := b'.(minTableTs := barrierTs);
      }
    }
  }

  // ---------------------------------------------------------------------------------------------
  // Sync points over a run
  // ---------------------------------------------------------------------------------------------

  datatype Call = Call(checkpointTs: nat, tp: BarrierType, ts: nat, sinkOk: bool)

  predicate CallFails(f: Feed, call: Call) {
    Fails(f, call.checkpointTs, call.tp, call.ts, call.sinkOk)
  }

  function AfterCall(f: Feed, ms: nat, call: Call): Feed {
    AfterHandle(f, call.checkpointTs, ms * SyncPoint.NS_PER_MS, call.tp, call.ts, call.sinkOk)
  }

  /** One life of the changefeed from `initialize` on.  The resolved ts is a TSO, never zero: the sink's
      last sync point starts at zero and a sync point at zero would count as written.  A failed call ends
      the life: the error releases the sink and the barriers. */
  ghost predicate Run(resolvedTs: nat, ms: nat, targetTs: nat, states: seq<Feed>, calls: seq<Call>) {
    && resolvedTs > 0 && ms > 0 && ms * SyncPoint.NS_PER_MS > 0
    && |states| == |calls| + 1
    && states[0].cache.inner == map[SyncPointBarrier := SyncPoint.First(resolvedTs, ms * SyncPoint.NS_PER_MS),
                                    FinishBarrier := targetTs]
    && states[0].cache.dirty && states[0].lastSync == 0 && states[0].emitted == [] && !states[0].finished
    && forall i | 0 <= i < |calls| ::
         && MinResult(states[i].cache, AfterMin(states[i].cache, calls[i].tp), calls[i].tp, calls[i].ts)
         && states[i + 1] == AfterCall(states[i], ms, calls[i])
         && (CallFails(states[i], calls[i]) ==> i == |calls| - 1)
  }

  /** The sync points written so far are the first multiples from `k` on. */
  predicate Consecutive(emitted: seq<nat>, k: nat, ms: nat) {
    forall i | 0 <= i < |emitted| :: emitted[i] == SyncPoint.Multiple(k + i, ms)
  }

  /** The `n` sync points written so far are the first `n` multiples from `k` on, and the barrier
      stands at the next one. */
  ghost predicate OnSchedule(f: Feed, k: nat, ms: nat) {
    && Coherent(f.cache) && f.cache.inner.Keys == {SyncPointBarrier, FinishBarrier}
    && f.cache.inner[SyncPointBarrier] == SyncPoint.Multiple(k + |f.emitted|, ms)
    && Consecutive(f.emitted, k, ms)
    && f.lastSync == if f.emitted == [] then 0 else f.emitted[|f.emitted| - 1]
  }

  lemma HandleKeepsSchedule(f: Feed, k: nat, ms: nat, call: Call)
    requires OnSchedule(f, k, ms) && ms > 0 && SyncPoint.Multiple(k, ms) > 0
    requires MinResult(f.cache, AfterMin(f.cache, call.tp), call.tp, call.ts)
    ensures Consecutive(AfterCall(f, ms, call).emitted, k, ms)
    ensures !CallFails(f, call) ==> OnSchedule(AfterCall(f, ms, call), k, ms)
  {
    var n := |f.emitted|;
    SyncPoint.NextIsNextMultiple(k + n, ms);
    if n > 0 {
      SyncPoint.NextIsNextMultiple(k + n - 1, ms);
    }
    assert f.cache.inner != map[] by { assert FinishBarrier in f.cache.inner; }
  }

  /** Over any run of ticks the sync points written are consecutive multiples of the interval, from
      the least one at or above the resolved ts, and until a call fails the barrier is the next multiple. */
  lemma {:induction false} SyncPointsAreConsecutive(resolvedTs: nat, ms: nat, targetTs: nat,
                                                    states: seq<Feed>, calls: seq<Call>, n: nat)
    requires Run(resolvedTs, ms, targetTs, states, calls) && n <= |calls|
    ensures Consecutive(states[n].emitted, SyncPoint.FirstIndex(resolvedTs, ms), ms)
    ensures n == 0 || !CallFails(states[n - 1], calls[n - 1]) ==> OnSchedule(states[n], SyncPoint.FirstIndex(resolvedTs, ms), ms)
    decreases n
  {
    var k := SyncPoint.FirstIndex(resolvedTs, ms);
    SyncPoint.FirstIsLeastMultiple(resolvedTs, ms);
    if n > 0 {
      SyncPointsAreConsecutive(resolvedTs, ms, targetTs, states, calls, n - 1);
      HandleKeepsSchedule(states[n - 1], k, ms, calls[n - 1]);
    }
  }

  /** The finish barrier stands at the target throughout, and every answer of `Min` is the smaller of the
      target and the next sync point: the DDL barrier, lowered to it, passes neither. */
  lemma AnswerIsLeast(resolvedTs: nat, ms: nat, targetTs: nat, states: seq<Feed>, calls: seq<Call>, n: nat)
    requires Run(resolvedTs, ms, targetTs, states, calls) && n < |calls|
    ensures var next := SyncPoint.Multiple(SyncPoint.FirstIndex(resolvedTs, ms) + |states[n].emitted|, ms);
            && calls[n].ts == (if next <= targetTs then next else targetTs)
            && calls[n].ts == (if calls[n].tp == FinishBarrier then targetTs else next)
  {
    SyncPointsAreConsecutive(resolvedTs, ms, targetTs, states, calls, n);
    FinishBarrierStays(resolvedTs, ms, targetTs, states, calls, n);
    assert states[n].cache.inner != map[] by { assert FinishBarrier in states[n].cache.inner; }
    MinSafeIffNonEmpty(states[n].cache, AfterMin(states[n].cache, calls[n].tp), calls[n].tp, calls[n].ts);
    assert SyncPointBarrier in states[n].cache.inner && FinishBarrier in states[n].cache.inner;
  }

  lemma {:induction false} FinishBarrierStays(resolvedTs: nat, ms: nat, targetTs: nat, states: seq<Feed>, calls: seq<Call>, n: nat)
    requires Run(resolvedTs, ms, targetTs, states, calls) && n <= |calls|
    ensures FinishBarrier in states[n].cache.inner && states[n].cache.inner[FinishBarrier] == targetTs
    decreases n
  {
    if n > 0 {
      FinishBarrierStays(resolvedTs, ms, targetTs, states, calls, n - 1);
    }
  }

  /** A call writes a sync point if and only if the checkpoint has reached the next one, `Min` names the
      sync-point barrier and the sink takes it; and that one sync point. */
  lemma SyncPointWrittenIff(resolvedTs: nat, ms: nat, targetTs: nat, states: seq<Feed>, calls: seq<Call>, n: nat)
    requires Run(resolvedTs, ms, targetTs, states, calls) && n < |calls|
    ensures var next := SyncPoint.Multiple(SyncPoint.FirstIndex(resolvedTs, ms) + |states[n].emitted|, ms);
            states[n + 1].emitted ==
            if calls[n].checkpointTs == next && calls[n].tp == SyncPointBarrier && calls[n].sinkOk
            then states[n].emitted + [next] else states[n].emitted
  {
    var k, m := SyncPoint.FirstIndex(resolvedTs, ms), |states[n].emitted|;
    SyncPointsAreConsecutive(resolvedTs, ms, targetTs, states, calls, n);
    AnswerIsLeast(resolvedTs, ms, targetTs, states, calls, n);
    SyncPoint.FirstIsLeastMultiple(resolvedTs, ms);
    if m > 0 {
      SyncPoint.NextIsNextMultiple(k + m - 1, ms);
    }
  }

  /** The changefeed is finished if and only if at some call the checkpoint stood at the target and `Min`
      named the finish barrier. */
  lemma {:induction false} FinishedIff(resolvedTs: nat, ms: nat, targetTs: nat, states: seq<Feed>, calls: seq<Call>, n: nat)
    requires Run(resolvedTs, ms, targetTs, states, calls) && n <= |calls|
    ensures states[n].finished <==>
            exists i | 0 <= i < n :: calls[i].tp == FinishBarrier && calls[i].checkpointTs == targetTs
    decreases n
  {
    if n > 0 {
      FinishedIff(resolvedTs, ms, targetTs, states, calls, n - 1);
      AnswerIsLeast(resolvedTs, ms, targetTs, states, calls, n - 1);
    }
  }
}
