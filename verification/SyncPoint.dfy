/** Sync-point timestamps.

    A TSO packs milliseconds above an 18-bit logical counter, while Go computes with durations in
    nanoseconds.  The owner aligns its sync points to multiples of the configured interval. */
module SyncPoint {

  const LOGICAL: nat := 0x4_0000
  const NS_PER_MS: nat := 1_000_000

  /** `oracle.GetTimeFromTS(ts).Sub(time.Unix(0, 0))`, in nanoseconds. */
  function TimeOf(ts: nat): nat {
    (ts / LOGICAL) * NS_PER_MS
  }

  /** `oracle.GoTimeToTS`: nanoseconds below a millisecond are cut off. */
  function TsOf(ns: nat): nat {
    (ns / NS_PER_MS) * LOGICAL
  }

  /** The first barrier computed by `changefeed.initialize`. */
  function First(resolvedTs: nat, intervalNs: nat): nat
    requires intervalNs > 0
  {
    var t := TimeOf(resolvedTs);
    var k := t / intervalNs;
    var k' := if t % intervalNs != 0 || resolvedTs % LOGICAL != 0 then k + 1 else k;
    TsOf(k' * intervalNs)
  }

  /** The barrier that follows `barrierTs` in `handleBarrier`. */
  function Next(barrierTs: nat, intervalNs: nat): nat {
    TsOf(TimeOf(barrierTs) + intervalNs)
  }

  /** The `k`-th multiple of an interval of `ms` milliseconds, as a TSO. */
  function Multiple(k: nat, ms: nat): nat {
    k * ms * LOGICAL
  }

  lemma MulDiv(a: nat, d: nat)
    requires d > 0
    ensures a * d / d == a && a * d % d == 0
  {
    DivUnique(a * d, d, a, 0);
  }

  lemma QuotientLe(d: nat, q: nat, r: nat, q': nat, r': nat)
    requires q * d + r == q' * d + r' && r' < d
    ensures q <= q'
  {
    assert (q' + 1) * d == q' * d + d;
    if q > q' {
      MulMono(q' + 1, q, d);
    }
  }

  lemma DivUnique(n: nat, d: nat, q: nat, r: nat)
    requires d > 0 && n == q * d + r && r < d
    ensures n / d == q && n % d == r
  {
    var q', r' := n / d, n % d;
    assert n == q' * d + r';
    QuotientLe(d, q, r, q', r');
    QuotientLe(d, q', r', q, r);
  }

  lemma MulMono(a: nat, b: nat, c: nat)
    requires a <= b
    ensures a * c <= b * c
  {
  }

  lemma MultipleMono(j: nat, k: nat, ms: nat)
    requires j <= k
    ensures Multiple(j, ms) <= Multiple(k, ms)
  {
    MulMono(j, k, ms);
    MulMono(j * ms, k * ms, LOGICAL);
  }

  lemma MulStep(k: nat, ms: nat)
    ensures Multiple(k + 1, ms) == Multiple(k, ms) + ms * LOGICAL
  {
  }

  /** Scaling both numbers by the nanoseconds in a millisecond changes neither quotient nor
      the fact that a remainder is left. */
  lemma ScaledDiv(p: nat, ms: nat)
    requires ms > 0
    ensures ms * NS_PER_MS > 0
    ensures p * NS_PER_MS / (ms * NS_PER_MS) == p / ms
    ensures p * NS_PER_MS % (ms * NS_PER_MS) == p % ms * NS_PER_MS
  {
    var q, r := p / ms, p % ms;
    assert p == q * ms + r;
    assert r * NS_PER_MS < ms * NS_PER_MS;
    calc {
      p * NS_PER_MS;
      (q * ms + r) * NS_PER_MS;
      q * ms * NS_PER_MS + r * NS_PER_MS;
      q * (ms * NS_PER_MS) + r * NS_PER_MS;
    }
    DivUnique(p * NS_PER_MS, ms * NS_PER_MS, q, r * NS_PER_MS);
  }

  lemma TsOfMultiple(k: nat, ms: nat)
    ensures TsOf(k * (ms * NS_PER_MS)) == Multiple(k, ms)
  {
    assert k * (ms * NS_PER_MS) == k * ms * NS_PER_MS;
    MulDiv(k * ms, NS_PER_MS);
  }

  /** A TSO is its milliseconds shifted by 18 bits and a logical part below; the way back drops the latter. */
  lemma TsoLayout(ms: nat, logical: nat)
    requires logical < 262_144
    ensures TimeOf(ms * 262_144 + logical) == ms * 1_000_000
    ensures TsOf(TimeOf(ms * 262_144 + logical)) == ms * 262_144
  {
    DivUnique(ms * 262_144 + logical, LOGICAL, ms, logical);
    MulDiv(ms, NS_PER_MS);
  }

  /** The number of the first multiple at or above `ts`. */
  function FirstIndex(ts: nat, ms: nat): nat
    requires ms > 0
  {
    var p := ts / LOGICAL;
    if p % ms != 0 || ts % LOGICAL != 0 then p / ms + 1 else p / ms
  }

  lemma FirstIsMultiple(ts: nat, ms: nat)
    requires ms > 0
    ensures ms * NS_PER_MS > 0
    ensures First(ts, ms * NS_PER_MS) == Multiple(FirstIndex(ts, ms), ms)
  {
    var p := ts / LOGICAL;
    ScaledDiv(p, ms);
    TsOfMultiple(FirstIndex(ts, ms), ms);
  }

  lemma FirstIndexBounds(ts: nat, ms: nat)
    requires ms > 0
    ensures ts <= Multiple(FirstIndex(ts, ms), ms)
    ensures FirstIndex(ts, ms) > 0 ==> Multiple(FirstIndex(ts, ms) - 1, ms) < ts
  {
    var p, l := ts / LOGICAL, ts % LOGICAL;
    var q, r := p / ms, p % ms;
    assert ts == p * LOGICAL + l;
    assert p == q * ms + r;
    var k := FirstIndex(ts, ms);
    if k == q + 1 {
      assert (q + 1) * ms == q * ms + ms;
      assert p + 1 <= k * ms;
      MulMono(p + 1, k * ms, LOGICAL);
      MulMono(q * ms, p, LOGICAL);
      if l == 0 {
        assert q * ms < p;
      }
    } else {
      assert k == q && r == 0 && l == 0;
      assert ts == Multiple(q, ms);
      if q > 0 {
        MulStep(q - 1, ms);
        assert ms * LOGICAL >= 1;
      }
    }
  }

  /** For any resolved ts, logical bits included, and any positive whole-millisecond interval, the
      first barrier is the least multiple of the interval at or above the resolved ts. */
  lemma FirstIsLeastMultiple(ts: nat, ms: nat)
    requires ms > 0
    ensures ms * NS_PER_MS > 0
    ensures First(ts, ms * NS_PER_MS) == Multiple(FirstIndex(ts, ms), ms)
    ensures ts <= First(ts, ms * NS_PER_MS)
    ensures forall j: nat :: ts <= Multiple(j, ms) ==> First(ts, ms * NS_PER_MS) <= Multiple(j, ms)
  {
    FirstIsMultiple(ts, ms);
    FirstIndexBounds(ts, ms);
    var k := FirstIndex(ts, ms);
    forall j: nat | ts <= Multiple(j, ms)
      ensures Multiple(k, ms) <= Multiple(j, ms)
    {
      if j < k {
        MultipleMono(j, k - 1, ms);
      } else {
        MultipleMono(k, j, ms);
      }
    }
  }

  /** After a barrier at a multiple comes the next multiple, strictly later. */
  lemma NextIsNextMultiple(k: nat, ms: nat)
    requires ms > 0
    ensures Next(Multiple(k, ms), ms * NS_PER_MS) == Multiple(k + 1, ms)
    ensures Multiple(k, ms) < Multiple(k + 1, ms)
  {
    MulDiv(k * ms, LOGICAL);
    assert TimeOf(Multiple(k, ms)) == k * ms * NS_PER_MS;
    assert k * ms * NS_PER_MS + ms * NS_PER_MS == (k + 1) * (ms * NS_PER_MS);
    TsOfMultiple(k + 1, ms);
    MulStep(k, ms);
    assert ms * LOGICAL >= 1;
  }

  // ---------------------------------------------------------------------------------------------
  // Intervals that are not a whole number of milliseconds
  // ---------------------------------------------------------------------------------------------

  /** Whether a multiple of the interval still reaches a point `ms` milliseconds on. */
  lemma ReachesIff(ns: nat, ms: nat)
    ensures ms * LOGICAL <= TsOf(ns) <==> ms * NS_PER_MS <= ns
  {
    var q := ns / NS_PER_MS;
    assert ns == q * NS_PER_MS + ns % NS_PER_MS;
    if ms <= q {
      MulMono(ms, q, LOGICAL);
      MulMono(ms, q, NS_PER_MS);
    } else {
      MulMono(q + 1, ms, LOGICAL);
      MulMono(q + 1, ms, NS_PER_MS);
    }
  }

  /** The multiple that `First` takes, and the one before. */
  lemma FirstMultiple(ts: nat, intervalNs: nat) returns (k: nat)
    requires intervalNs > 0
    ensures First(ts, intervalNs) == TsOf(k * intervalNs)
    ensures var t := TimeOf(ts);
            k * intervalNs == if t % intervalNs != 0 || ts % LOGICAL != 0 then t + (intervalNs - t % intervalNs) else t
    ensures k > 0 ==> TsOf((k - 1) * intervalNs) < ts
  {
    var p, t := ts / LOGICAL, TimeOf(ts);
    var q, r := t / intervalNs, t % intervalNs;
    assert t == q * intervalNs + r && ts == p * LOGICAL + ts % LOGICAL;
    assert (q + 1) * intervalNs == q * intervalNs + intervalNs;
    k := if r != 0 || ts % LOGICAL != 0 then q + 1 else q;
    if k > 0 {
      assert (k - 1) * intervalNs == k * intervalNs - intervalNs;
      var below := if ts % LOGICAL == 0 then p else p + 1;
      ReachesIff((k - 1) * intervalNs, below);
      assert ts % LOGICAL != 0 ==> TsOf((k - 1) * intervalNs) <= p * LOGICAL by {
        TruncatedBelow((k - 1) * intervalNs, p);
      }
    }
  }

  lemma TruncatedBelow(ns: nat, p: nat)
    ensures ns < (p + 1) * NS_PER_MS ==> TsOf(ns) <= p * LOGICAL
  {
    if ns < (p + 1) * NS_PER_MS {
      assert ns / NS_PER_MS <= p;
      MulMono(ns / NS_PER_MS, p, LOGICAL);
    }
  }

  /** For every positive interval the first barrier reaches the resolved ts if and only if the resolved
      ts has no logical part or is at least a millisecond short of the next multiple. */
  lemma FirstReachesIff(ts: nat, intervalNs: nat)
    requires intervalNs > 0
    ensures ts <= First(ts, intervalNs) <==> ts % LOGICAL == 0 || intervalNs - TimeOf(ts) % intervalNs >= NS_PER_MS
  {
    var p, t := ts / LOGICAL, TimeOf(ts);
    var k := FirstMultiple(ts, intervalNs);
    ReachesIff(k * intervalNs, p);
    ReachesIff(k * intervalNs, p + 1);
    assert ts == p * LOGICAL + ts % LOGICAL;
    if ts % LOGICAL != 0 {
      TruncatedBelow(k * intervalNs, p);
    }
  }

  /** It is then the least multiple, cut to milliseconds, at or above the resolved ts; and it never
      skips one. */
  lemma FirstSkipsNone(ts: nat, intervalNs: nat, j: nat)
    requires intervalNs > 0 && ts <= TsOf(j * intervalNs)
    ensures First(ts, intervalNs) <= TsOf(j * intervalNs)
  {
    var k := FirstMultiple(ts, intervalNs);
    if j < k {
      MulMono(j, k - 1, intervalNs);
      TsOfMono(j * intervalNs, (k - 1) * intervalNs);
    } else {
      MulMono(k, j, intervalNs);
      TsOfMono(k * intervalNs, j * intervalNs);
    }
  }

  lemma TsOfMono(a: nat, b: nat)
    requires a <= b
    ensures TsOf(a) <= TsOf(b)
  {
    MulMono(a / NS_PER_MS, b / NS_PER_MS, LOGICAL);
  }

  /** The barrier after the `k`-th multiple, cut to milliseconds, is the next one, cut alike, if and only
      if the two cut-off parts stay below a millisecond together; otherwise the barriers drift back. */
  lemma NextIsNextCutMultipleIff(k: nat, intervalNs: nat)
    ensures Next(TsOf(k * intervalNs), intervalNs) == TsOf((k + 1) * intervalNs) <==>
            (k * intervalNs) % NS_PER_MS + intervalNs % NS_PER_MS < NS_PER_MS
  {
    var a := k * intervalNs;
    MulDiv(a / NS_PER_MS, LOGICAL);
    assert TimeOf(TsOf(a)) == (a / NS_PER_MS) * NS_PER_MS;
    assert (k + 1) * intervalNs == a + intervalNs;
    AddDiv(a, intervalNs);
  }

  /** Cutting before adding loses a unit exactly when the remainders carry. */
  lemma AddDiv(a: nat, b: nat)
    ensures ((a / NS_PER_MS) * NS_PER_MS + b) / NS_PER_MS == (a + b) / NS_PER_MS <==> a % NS_PER_MS + b % NS_PER_MS < NS_PER_MS
  {
  }

  /** An interval the configuration accepts, 30 s and half a millisecond, falls short one logical tick
      after 30 s; and its second barrier is not the second multiple. */
  lemma FractionalIntervalFallsShort()
    ensures First(30_000 * LOGICAL + 1, 30_000_500_000) < 30_000 * LOGICAL + 1
    ensures Next(TsOf(30_000_500_000), 30_000_500_000) < TsOf(2 * 30_000_500_000)
  {
  }
}
