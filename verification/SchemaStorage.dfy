/** Multi-version schema storage with garbage collection.

    The content of a snapshot is left open: `C` is any type, and `apply` any function that applies a
    DDL job to it or refuses. */
module SchemaStorage {
  import opened Prelude

  /** A DDL job; `id` stands for whatever the job changes. */
  datatype Job = Job(id: nat, finishedTs: nat, schemaVersion: nat, isDone: bool, filtered: bool)

  type Apply<!C> = (C, Job) -> Option<C>

  datatype Snapshot<+C> = Snapshot(currentTs: nat, content: C)

  datatype Storage<+C> = Storage(snaps: seq<Snapshot<C>>, gcTs: nat, resolvedTs: nat)

  datatype Answer<+C> = Found(snap: Snapshot<C>) | GCed | Unresolved | NotFound

  predicate Ordered<C>(snaps: seq<Snapshot<C>>) {
    forall i, j | 0 <= i < j < |snaps| :: snaps[i].currentTs < snaps[j].currentTs
  }

  /** The newest snapshot not newer than `ts`: what a read is meant to find. */
  function Latest<C>(snaps: seq<Snapshot<C>>, ts: nat): Option<Snapshot<C>> {
    if snaps == [] then None
    else if snaps[|snaps| - 1].currentTs <= ts then Some(snaps[|snaps| - 1])
    else Latest(snaps[..|snaps| - 1], ts)
  }

  function Read<C>(st: Storage<C>, ts: nat): Answer<C> {
    if ts < st.gcTs then GCed
    else if ts > st.resolvedTs then Unresolved
    else match Latest(st.snaps, ts)
      case None => NotFound
      case Some(s) => Found(s)
  }

  function AfterAdvance<C>(st: Storage<C>, ts: nat): Storage<C> {
    if ts > st.resolvedTs then st.(resolvedTs := ts) else st
  }

  /** What a job does to the list of snapshots. */
  datatype JobEffect<+C> = SkippedJob | Foregone | Refused | Appended(snap: Snapshot<C>)

  function EffectOf<C>(snaps: seq<Snapshot<C>>, job: Job, apply: Apply<C>, empty: C): JobEffect<C> {
    if !job.isDone then SkippedJob
    else if snaps != [] && job.finishedTs <= snaps[|snaps| - 1].currentTs then Foregone
    else
      var base := if snaps != [] then snaps[|snaps| - 1].content else empty;
      match apply(base, job)
      case None => Refused
      case Some(content) => Appended(Snapshot(job.finishedTs, content))
  }

  function AfterJob<C>(st: Storage<C>, job: Job, apply: Apply<C>, empty: C): Storage<C> {
    match EffectOf(st.snaps, job, apply, empty)
    case SkippedJob => AfterAdvance(st, job.finishedTs)
    case Foregone => st
    case Refused => st
    case Appended(snap) => AfterAdvance(st.(snaps := st.snaps + [snap]), job.finishedTs)
  }

  /** The first snapshot that has to stay: the newest one not newer than `ts`, or the oldest. */
  function GcIndex<C>(snaps: seq<Snapshot<C>>, ts: nat): (i: nat)
    ensures snaps != [] ==> i < |snaps|
    ensures i > 0 ==> i < |snaps| && snaps[i].currentTs <= ts
  {
    if |snaps| <= 1 then 0
    else if snaps[|snaps| - 1].currentTs <= ts then |snaps| - 1
    else GcIndex(snaps[..|snaps| - 1], ts)
  }

  function AfterGC<C>(st: Storage<C>, ts: nat): Storage<C> {
    var i := GcIndex(st.snaps, ts);
    if i == 0 then st else st.(snaps := st.snaps[i..], gcTs := st.snaps[i].currentTs)
  }

  class SchemaStorageImpl<C(!new)> {
    var snaps: seq<Snapshot<C>>
    var gcTs: nat
    var resolvedTs: nat
    const apply: Apply<C>
    const empty: C

    function Value(): Storage<C>
      reads this
    {
      Storage(snaps, gcTs, resolvedTs)
    }

    constructor (initial: C, startTs: nat, apply: Apply<C>, empty: C)
      ensures Value() == Storage([Snapshot(startTs, initial)], 0, startTs)
      ensures this.apply == apply && this.empty == empty
    {
      snaps, gcTs, resolvedTs := [Snapshot(startTs, initial)], 0, startTs;
      this.apply, this.empty := apply, empty;
    }

    /** `sort.Search` for the first snapshot newer than `ts`. */
    method Search(ts: nat) returns (i: nat)
      requires Ordered(snaps)
      ensures i <= |snaps|
      ensures forall k | 0 <= k < i :: snaps[k].currentTs <= ts
      ensures forall k | i <= k < |snaps| :: snaps[k].currentTs > ts
    {
      var lo, hi := 0, |snaps|;
      while lo < hi
        invariant 0 <= lo <= hi <= |snaps|
        invariant forall k | 0 <= k < lo :: snaps[k].currentTs <= ts
        invariant forall k | hi <= k < |snaps| :: snaps[k].currentTs > ts
      {
        var mid := (lo + hi) / 2;
        if snaps[mid].currentTs > ts {
          hi := mid;
        } else {
          lo := mid + 1;
        }
      }
      return lo;
    }

    method GetSnapshot(ts: nat) returns (a: Answer<C>)
      requires Ordered(snaps)
      ensures a == Read(Value(), ts)
    {
      if ts < gcTs {
        return GCed;
      }
      if ts > resolvedTs {
        return Unresolved;
      }
      var i := Search(ts);
      LatestIs(snaps, ts, i);
      if i == 0 {
        return NotFound;
      }
      return Found(snaps[i - 1]);
    }

    method AdvanceResolvedTs(ts: nat)
      modifies this`resolvedTs
      ensures Value() == AfterAdvance(old(Value()), ts)
    {
      if ts > resolvedTs {
        resolvedTs := ts;
      }
    }

    method HandleDDLJob(job: Job) returns (ok: bool)
      modifies this
      ensures Value() == AfterJob(old(Value()), job, apply, empty)
      ensures ok <==> !EffectOf(old(snaps), job, apply, empty).Refused?
    {
      if !job.isDone {
        AdvanceResolvedTs(job.finishedTs);
        return true;
      }
      var base := empty;
      if |snaps| > 0 {
        var last := snaps[|snaps| - 1];
        if job.finishedTs <= last.currentTs {
          return true;
        }
        base := last.content;
      }
      var content := apply(base, job);
      if content.None? {
        return false;
      }
      snaps := snaps + [Snapshot(job.finishedTs, content.value)];
      AdvanceResolvedTs(job.finishedTs);
      return true;
    }

    method DoGC(ts: nat) returns (lastSchemaTs: nat)
      requires snaps != [] && Ordered(snaps)
      modifies this
      ensures Value() == AfterGC(old(Value()), ts)
      ensures snaps != [] && lastSchemaTs == snaps[0].currentTs
    {
      var startIdx := 0;
      var i := 0;
      while i < |snaps|
        invariant 0 <= i <= |snaps| && startIdx == (if i == 0 then 0 else i - 1)
        invariant forall k | 0 <= k < i :: snaps[k].currentTs <= ts
      {
        if snaps[i].currentTs > ts {
          break;
        }
        startIdx := i;
        i := i + 1;
      }
      GcIndexIs(snaps, ts, startIdx);
      if startIdx == 0 {
        return snaps[0].currentTs;
      }
      snaps := snaps[startIdx..];
      lastSchemaTs := snaps[0].currentTs;
      gcTs := lastSchemaTs;
    }
  }

  // ---------------------------------------------------------------------------------------------
  // Reads and garbage collection
  // ---------------------------------------------------------------------------------------------

  lemma {:induction false} LatestIs<C>(snaps: seq<Snapshot<C>>, ts: nat, i: nat)
    requires i <= |snaps|
    requires forall k | 0 <= k < i :: snaps[k].currentTs <= ts
    requires forall k | i <= k < |snaps| :: snaps[k].currentTs > ts
    ensures Latest(snaps, ts) == if i == 0 then None else Some(snaps[i - 1])
    decreases |snaps|
  {
    if i < |snaps| {
      LatestIs(snaps[..|snaps| - 1], ts, i);
    }
  }

  lemma {:induction false} GcIndexIs<C>(snaps: seq<Snapshot<C>>, ts: nat, i: nat)
    requires i < |snaps| && Ordered(snaps)
    requires i > 0 ==> snaps[i].currentTs <= ts
    requires i + 1 < |snaps| ==> snaps[i + 1].currentTs > ts || (i == 0 && snaps[0].currentTs > ts)
    ensures GcIndex(snaps, ts) == i
    decreases |snaps|
  {
    if i + 1 < |snaps| {
      GcIndexIs(snaps[..|snaps| - 1], ts, i);
    }
  }

  lemma {:induction false} GcIndexIsNewest<C>(snaps: seq<Snapshot<C>>, ts: nat)
    requires snaps != [] && Ordered(snaps)
    ensures var i := GcIndex(snaps, ts); i + 1 < |snaps| && snaps[i].currentTs <= ts ==> snaps[i + 1].currentTs > ts
    decreases |snaps|
  {
    if |snaps| > 1 {
      GcIndexIsNewest(snaps[..|snaps| - 1], ts);
    }
  }

  /** A read is answered below the collected part, above the resolved ts and before the oldest snapshot with
      the error of its own; between them with the newest snapshot not newer than `ts`. */
  lemma {:induction false} ReadIff<C>(st: Storage<C>, ts: nat)
    requires Ordered(st.snaps)
    ensures Read(st, ts).GCed? <==> ts < st.gcTs
    ensures Read(st, ts).Unresolved? <==> st.gcTs <= ts && st.resolvedTs < ts
    ensures Read(st, ts).NotFound? <==>
            st.gcTs <= ts <= st.resolvedTs && forall i | 0 <= i < |st.snaps| :: ts < st.snaps[i].currentTs
    ensures Read(st, ts).Found? ==>
              && st.gcTs <= ts <= st.resolvedTs && Read(st, ts).snap in st.snaps && Read(st, ts).snap.currentTs <= ts
              && forall i | 0 <= i < |st.snaps| ::
                   st.snaps[i].currentTs <= ts ==> st.snaps[i].currentTs <= Read(st, ts).snap.currentTs
  {
    LatestIsNewest(st.snaps, ts);
  }

  lemma {:induction false} LatestIsNewest<C>(snaps: seq<Snapshot<C>>, ts: nat)
    requires Ordered(snaps)
    ensures Latest(snaps, ts).None? <==> forall i | 0 <= i < |snaps| :: ts < snaps[i].currentTs
    ensures Latest(snaps, ts).Some? ==>
              && Latest(snaps, ts).value in snaps && Latest(snaps, ts).value.currentTs <= ts
              && forall i | 0 <= i < |snaps| :: snaps[i].currentTs <= ts ==> snaps[i].currentTs <= Latest(snaps, ts).value.currentTs
  {
    if snaps != [] && snaps[|snaps| - 1].currentTs > ts {
      LatestIsNewest(snaps[..|snaps| - 1], ts);
    }
  }

  /** A job that applies is readable from its finished ts on as soon as it was handled; one that is not done
      only makes its finished ts readable. */
  lemma HandledJobIsReadable<C>(st: Storage<C>, job: Job, apply: Apply<C>, empty: C)
    requires st.snaps != [] && Ordered(st.snaps) && st.gcTs <= st.snaps[0].currentTs
    requires st.snaps[|st.snaps| - 1].currentTs < job.finishedTs
    ensures var st' := AfterJob(st, job, apply, empty);
            if !job.isDone then st'.snaps == st.snaps && st'.resolvedTs >= job.finishedTs
            else
              var made := apply(st.snaps[|st.snaps| - 1].content, job);
              if made.None? then st' == st
              else Read(st', job.finishedTs) == Found(Snapshot(job.finishedTs, made.value)) && |st'.snaps| == |st.snaps| + 1
  {
  }

  lemma {:induction false} LatestOfSuffix<C>(snaps: seq<Snapshot<C>>, i: nat, t: nat)
    requires i < |snaps| && Ordered(snaps) && snaps[i].currentTs <= t
    ensures Latest(snaps[i..], t) == Latest(snaps, t) != None
    decreases |snaps|
  {
    var n := |snaps| - 1;
    if snaps[n].currentTs > t {
      assert snaps[i..][..n - i] == snaps[..n][i..];
      LatestOfSuffix(snaps[..n], i, t);
    }
  }

  /** Collection changes no answer from the new oldest snapshot on, and never removes one needed at
      or after `ts`: it only raises `gcTs`, and not above `ts`.  All but the newest snapshot not newer
      than `ts` go. */
  lemma GcPreservesAnswers<C>(st: Storage<C>, ts: nat, t: nat)
    requires st.snaps != [] && Ordered(st.snaps) && st.gcTs <= st.snaps[0].currentTs
    ensures var st' := AfterGC(st, ts);
            && st'.snaps != [] && Ordered(st'.snaps) && st'.gcTs <= st'.snaps[0].currentTs
            && st'.resolvedTs == st.resolvedTs
            && (st' == st || (st'.gcTs == st'.snaps[0].currentTs && st'.gcTs <= ts))
            && (t >= st'.snaps[0].currentTs || t >= ts ==> Read(st', t) == Read(st, t))
            && (|st'.snaps| > 1 && st'.snaps[0].currentTs <= ts ==> st'.snaps[1].currentTs > ts)
  {
    var i := GcIndex(st.snaps, ts);
    GcIndexIsNewest(st.snaps, ts);
    if i > 0 && st.snaps[i].currentTs <= t {
      LatestOfSuffix(st.snaps, i, t);
    }
  }
}
