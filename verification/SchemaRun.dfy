/** The schema storage under its puller, its readers, the owner and the collector, over whole runs.

    `AdvanceResolvedTs` is not atomic and has two callers, the DDL job puller and the owner, so the
    storage's resolved ts may even fall back; reads stay stable because the puller's own resolved ts
    guards every job. */
module SchemaRun {
  import opened Prelude
  import opened SchemaStorage

  /** Where the puller goroutine is.  `Storing` has found `ts` above the storage's resolved ts and is
      about to store it; `Setting` is about to update the puller's own resolved ts, for a job
      unconditionally. */
  datatype Phase = Idle | Storing(ts: nat, forJob: bool) | Setting(ts: nat, forJob: bool) | Failed

  /** The history variables: the jobs that made a snapshot, the answers given, the highest ts the
      collector was called with. */
  datatype State<+C> = State(st: Storage<C>, pullerTs: nat, phase: Phase, ownerStore: Option<nat>, readers: set<nat>,
                             accepted: seq<Job>, answers: seq<(nat, Snapshot<C>)>, gcMax: nat)

  datatype Step =
    | GetResolved(ts: nat) | GetJob(job: Job) | Store | Set
    | OwnerCheck(ts: nat) | OwnerStore
    | ReadCheck(ts: nat) | ReadFind(ts: nat)
    | Collect(ts: nat)

  /** What all of a run agrees on. */
  datatype Setup<!C> = Setup(initial: C, startTs: nat, apply: Apply<C>, empty: C)

  function Init<C>(u: Setup<C>): State<C> {
    State(Storage([Snapshot(u.startTs, u.initial)], 0, u.startTs), 0, Idle, None, {}, [], [], 0)
  }

  function Checked<C>(st: Storage<C>, ts: nat, forJob: bool): Phase {
    if ts > st.resolvedTs then Storing(ts, forJob) else Setting(ts, forJob)
  }

  /** The puller's guard in `handleJob`. */
  predicate Discards(pullerTs: nat, job: Job) {
    job.finishedTs <= pullerTs || job.schemaVersion == 0 || job.filtered
  }

  function TakeJob<C>(u: Setup<C>, s: State<C>, job: Job): State<C> {
    if Discards(s.pullerTs, job) then s
    else match EffectOf(s.st.snaps, job, u.apply, u.empty)
      case SkippedJob => s.(phase := Checked(s.st, job.finishedTs, true))
      case Foregone => s.(phase := Setting(job.finishedTs, true))
      case Refused => s.(phase := Failed)
      case Appended(snap) =>
        s.(st := s.st.(snaps := s.st.snaps + [snap]), accepted := s.accepted + [job],
           phase := Checked(s.st, job.finishedTs, true))
  }

  ghost predicate Next<C>(u: Setup<C>, s: State<C>, step: Step, s': State<C>) {
    match step
    case GetResolved(ts) => s.phase.Idle? && s' == s.(phase := Checked(s.st, ts, false))
    case GetJob(job) => s.phase.Idle? && s' == TakeJob(u, s, job)
    case Store =>
      s.phase.Storing? && s' == s.(st := s.st.(resolvedTs := s.phase.ts), phase := Setting(s.phase.ts, s.phase.forJob))
    case Set =>
      && s.phase.Setting?
      && s' == s.(phase := Idle, pullerTs := if s.phase.forJob then s.phase.ts else Max(s.pullerTs, s.phase.ts))
    case OwnerCheck(ts) =>
      // The owner only passes on what the job puller has already output.
      && s.ownerStore.None? && ts <= Max(u.startTs, s.pullerTs)
      && s' == s.(ownerStore := if ts > s.st.resolvedTs then Some(ts) else None)
    case OwnerStore =>
      s.ownerStore.Some? && s' == s.(st := s.st.(resolvedTs := s.ownerStore.value), ownerStore := None)
    case ReadCheck(ts) =>
      s.st.gcTs <= ts <= s.st.resolvedTs && s' == s.(readers := s.readers + {ts})
    case ReadFind(ts) =>
      && ts in s.readers
      && var found := Latest(s.st.snaps, ts);
         s' == if found.None? then s else s.(answers := s.answers + [(ts, found.value)])
    case Collect(ts) => s' == s.(st := AfterGC(s.st, ts), gcMax := Max(s.gcMax, ts))
  }

  // ---------------------------------------------------------------------------------------------
  // Replay: the reference
  // ---------------------------------------------------------------------------------------------

  /** The initial snapshot with the given jobs applied in order. */
  function Replay<C>(u: Setup<C>, jobs: seq<Job>): Option<Snapshot<C>> {
    if jobs == [] then Some(Snapshot(u.startTs, u.initial))
    else
      var before, job := Replay(u, jobs[..|jobs| - 1]), jobs[|jobs| - 1];
      if before.None? then None
      else match u.apply(before.value.content, job)
        case None => None
        case Some(content) => Some(Snapshot(job.finishedTs, content))
  }

  /** The jobs finished at or before `ts`. */
  function UpTo(jobs: seq<Job>, ts: nat): seq<Job> {
    if jobs == [] then []
    else
      var rest, job := UpTo(jobs[..|jobs| - 1], ts), jobs[|jobs| - 1];
      if job.finishedTs <= ts then rest + [job] else rest
  }

  function Moment<C>(u: Setup<C>, jobs: seq<Job>): nat {
    if jobs == [] then u.startTs else jobs[|jobs| - 1].finishedTs
  }

  predicate Chronological(startTs: nat, jobs: seq<Job>) {
    && (forall i | 0 <= i < |jobs| :: startTs < jobs[i].finishedTs)
    && (forall i, j | 0 <= i < j < |jobs| :: jobs[i].finishedTs < jobs[j].finishedTs)
  }

  lemma {:induction false} UpToIsPrefix(jobs: seq<Job>, ts: nat, k: nat)
    requires k <= |jobs|
    requires forall i | 0 <= i < k :: jobs[i].finishedTs <= ts
    requires forall i | k <= i < |jobs| :: jobs[i].finishedTs > ts
    ensures UpTo(jobs, ts) == jobs[..k]
    decreases |jobs|
  {
    if jobs != [] {
      var init := jobs[..|jobs| - 1];
      if k < |jobs| {
        UpToIsPrefix(init, ts, k);
        assert init[..k] == jobs[..k];
      } else {
        UpToIsPrefix(init, ts, k - 1);
        assert init[..k - 1] + [jobs[k - 1]] == jobs[..k];
      }
    }
  }

  // ---------------------------------------------------------------------------------------------
  // The invariant
  // ---------------------------------------------------------------------------------------------

  /** The snapshots are the replays of the prefixes of the accepted jobs, the oldest ones collected. */
  ghost predicate Versions<C>(u: Setup<C>, snaps: seq<Snapshot<C>>, accepted: seq<Job>) {
    var g := |accepted| + 1 - |snaps|;
    && 0 <= g && snaps != []
    && Chronological(u.startTs, accepted)
    && forall i | 0 <= i < |snaps| ::
         Replay(u, accepted[..g + i]) == Some(snaps[i]) && snaps[i].currentTs == Moment(u, accepted[..g + i])
  }

  /** Nothing above this has been promised to a reader. */
  function Bound<C>(u: Setup<C>, s: State<C>): nat {
    Max(Max(u.startTs, s.pullerTs), if s.phase.Storing? || s.phase.Setting? then s.phase.ts else 0)
  }

  ghost predicate Bounded<C>(u: Setup<C>, s: State<C>) {
    && s.st.resolvedTs <= Bound(u, s)
    && (s.ownerStore.Some? ==> s.ownerStore.value <= Bound(u, s))
    && (forall ts <- s.readers :: ts <= Bound(u, s))
    && (forall a <- s.answers :: a.0 <= Bound(u, s))
    && (s.phase.Storing? || s.phase.Setting? ==> s.phase.forJob ==> s.pullerTs < s.phase.ts)
    && (s.phase.Failed? || Moment(u, s.accepted) <= Bound(u, s))
  }

  ghost predicate Collected<C>(u: Setup<C>, s: State<C>) {
    && s.st.snaps != []
    && s.st.gcTs <= s.st.snaps[0].currentTs
    && s.st.gcTs <= s.gcMax
    && s.st.snaps[0].currentTs <= Max(u.startTs, s.gcMax)
  }

  /** Every answer given is what replaying the accepted jobs up to its ts yields. */
  ghost predicate Stable<C>(u: Setup<C>, accepted: seq<Job>, answers: seq<(nat, Snapshot<C>)>) {
    forall a <- answers :: Replay(u, UpTo(accepted, a.0)) == Some(a.1)
  }

  ghost predicate Inv<C>(u: Setup<C>, s: State<C>) {
    Versions(u, s.st.snaps, s.accepted) && Bounded(u, s) && Collected(u, s) && Stable(u, s.accepted, s.answers)
  }

  lemma VersionsOrdered<C>(u: Setup<C>, snaps: seq<Snapshot<C>>, accepted: seq<Job>)
    requires Versions(u, snaps, accepted)
    ensures Ordered(snaps)
  {
    var g := |accepted| + 1 - |snaps|;
    forall i, j | 0 <= i < j < |snaps|
      ensures snaps[i].currentTs < snaps[j].currentTs
    {
      assert snaps[j].currentTs == accepted[g + j - 1].finishedTs;
      assert g + i > 0 ==> snaps[i].currentTs == accepted[g + i - 1].finishedTs;
    }
  }

  /** What a search finds is the replay of exactly the accepted jobs up to `ts`. */
  lemma FoundIsReplay<C>(u: Setup<C>, snaps: seq<Snapshot<C>>, accepted: seq<Job>, ts: nat)
    requires Versions(u, snaps, accepted) && Latest(snaps, ts).Some?
    ensures Replay(u, UpTo(accepted, ts)) == Latest(snaps, ts)
  {
    var g := |accepted| + 1 - |snaps|;
    VersionsOrdered(u, snaps, accepted);
    var i := FirstNewer(snaps, ts);
    LatestIs(snaps, ts, i);
    var k := g + i - 1;
    forall x | 0 <= x < k
      ensures accepted[x].finishedTs <= ts
    {
      assert snaps[i - 1].currentTs == accepted[k - 1].finishedTs;
    }
    forall x | k <= x < |accepted|
      ensures accepted[x].finishedTs > ts
    {
      assert snaps[i].currentTs == accepted[k].finishedTs;
    }
    UpToIsPrefix(accepted, ts, k);
  }

  lemma {:induction false} FirstNewer<C>(snaps: seq<Snapshot<C>>, ts: nat) returns (i: nat)
    requires Ordered(snaps)
    ensures i <= |snaps|
    ensures forall k | 0 <= k < i :: snaps[k].currentTs <= ts
    ensures forall k | i <= k < |snaps| :: snaps[k].currentTs > ts
  {
    i := |snaps|;
    while i > 0 && snaps[i - 1].currentTs > ts
      invariant 0 <= i <= |snaps|
      invariant forall k | i <= k < |snaps| :: snaps[k].currentTs > ts
    {
      i := i - 1;
    }
  }

  // ---------------------------------------------------------------------------------------------
  // Each step keeps the invariant
  // ---------------------------------------------------------------------------------------------

  lemma AppendKeepsVersions<C>(u: Setup<C>, snaps: seq<Snapshot<C>>, accepted: seq<Job>, job: Job)
    requires Versions(u, snaps, accepted)
    requires EffectOf(snaps, job, u.apply, u.empty).Appended?
    ensures Versions(u, snaps + [EffectOf(snaps, job, u.apply, u.empty).snap], accepted + [job])
    ensures job.finishedTs > Moment(u, accepted)
  {
    var snap := EffectOf(snaps, job, u.apply, u.empty).snap;
    var g := |accepted| + 1 - |snaps|;
    var all, jobs := snaps + [snap], accepted + [job];
    var last := |snaps| - 1;
    assert accepted[..g + last] == accepted;
    assert Replay(u, accepted) == Some(snaps[last]) && snaps[last].currentTs == Moment(u, accepted);
    assert jobs[..|accepted|] == accepted;
    forall i | 0 <= i < |all|
      ensures Replay(u, jobs[..g + i]) == Some(all[i]) && all[i].currentTs == Moment(u, jobs[..g + i])
    {
      if i < |snaps| {
        assert jobs[..g + i] == accepted[..g + i];
      } else {
        assert jobs[..g + i] == jobs;
      }
    }
    assert accepted != [] ==> accepted[|accepted| - 1].finishedTs < job.finishedTs;
  }

  /** A job above every answered ts changes no answer. */
  lemma LaterJobKeepsAnswers<C>(u: Setup<C>, accepted: seq<Job>, answers: seq<(nat, Snapshot<C>)>, job: Job)
    requires Stable(u, accepted, answers)
    requires forall a <- answers :: a.0 < job.finishedTs
    ensures Stable(u, accepted + [job], answers)
  {
    assert (accepted + [job])[..|accepted|] == accepted;
    forall a <- answers
      ensures Replay(u, UpTo(accepted + [job], a.0)) == Some(a.1)
    {
      assert UpTo(accepted + [job], a.0) == UpTo(accepted, a.0);
    }
  }

  /** An appended job lies above everything promised: the puller's guard and the last snapshot see to it. */
  lemma AppendedAboveBound<C>(u: Setup<C>, s: State<C>, job: Job)
    requires Inv(u, s) && s.phase.Idle? && !Discards(s.pullerTs, job)
    requires EffectOf(s.st.snaps, job, u.apply, u.empty).Appended?
    ensures Bound(u, s) < job.finishedTs
  {
    AppendKeepsVersions(u, s.st.snaps, s.accepted, job);
    assert u.startTs <= Moment(u, s.accepted);
  }

  lemma JobKeepsInv<C>(u: Setup<C>, s: State<C>, job: Job)
    requires Inv(u, s) && s.phase.Idle?
    ensures Inv(u, TakeJob(u, s, job))
  {
    if !Discards(s.pullerTs, job) && EffectOf(s.st.snaps, job, u.apply, u.empty).Appended? {
      AppendKeepsVersions(u, s.st.snaps, s.accepted, job);
      AppendedAboveBound(u, s, job);
      LaterJobKeepsAnswers(u, s.accepted, s.answers, job);
      assert Moment(u, s.accepted + [job]) == job.finishedTs;
    }
  }

  /** The younger snapshots are versions still. */
  lemma SuffixKeepsVersions<C>(u: Setup<C>, snaps: seq<Snapshot<C>>, accepted: seq<Job>, i: nat)
    requires Versions(u, snaps, accepted) && i < |snaps|
    ensures Versions(u, snaps[i..], accepted)
  {
    var g := |accepted| + 1 - |snaps|;
    var rest := snaps[i..];
    assert |accepted| + 1 - |rest| == g + i;
    forall k | 0 <= k < |rest|
      ensures Replay(u, accepted[..g + i + k]) == Some(rest[k]) && rest[k].currentTs == Moment(u, accepted[..g + i + k])
    {
      assert rest[k] == snaps[i + k];
      assert g + i + k == g + (i + k);
    }
  }

  lemma CollectKeepsInv<C>(u: Setup<C>, s: State<C>, ts: nat)
    requires Inv(u, s)
    ensures Inv(u, s.(st := AfterGC(s.st, ts), gcMax := Max(s.gcMax, ts)))
  {
    SuffixKeepsVersions(u, s.st.snaps, s.accepted, GcIndex(s.st.snaps, ts));
  }

  lemma StepKeepsInv<C>(u: Setup<C>, s: State<C>, step: Step, s': State<C>)
    requires Inv(u, s) && Next(u, s, step, s')
    ensures Inv(u, s')
  {
    match step
    case GetJob(job) => JobKeepsInv(u, s, job);
    case Collect(ts) => CollectKeepsInv(u, s, ts);
    case ReadFind(ts) =>
      if Latest(s.st.snaps, ts).Some? {
        FoundIsReplay(u, s.st.snaps, s.accepted, ts);
      }
    case _ =>
  }

  // ---------------------------------------------------------------------------------------------
  // Whole runs
  // ---------------------------------------------------------------------------------------------

  ghost predicate Run<C>(u: Setup<C>, states: seq<State<C>>, steps: seq<Step>) {
    && |states| == |steps| + 1 && states[0] == Init(u)
    && forall i | 0 <= i < |steps| :: Next(u, states[i], steps[i], states[i + 1])
  }

  lemma {:induction false} RunKeepsInv<C>(u: Setup<C>, states: seq<State<C>>, steps: seq<Step>, n: nat)
    requires Run(u, states, steps) && n <= |steps|
    ensures Inv(u, states[n])
    decreases n
  {
    if n > 0 {
      RunKeepsInv(u, states, steps, n - 1);
      StepKeepsInv(u, states[n - 1], steps[n - 1], states[n]);
    } else {
      assert states[0].accepted[..0] == [];
    }
  }

  lemma {:induction false} AnswersStay<C>(u: Setup<C>, states: seq<State<C>>, steps: seq<Step>, m: nat, n: nat)
    requires Run(u, states, steps) && m <= n <= |steps|
    ensures states[m].answers <= states[n].answers
    decreases n
  {
    if m < n {
      AnswersStay(u, states, steps, m, n - 1);
      assert Next(u, states[n - 1], steps[n - 1], states[n]);
    }
  }

  /** Stable reads: an answer given at any point of a run equals replaying, on the initial snapshot,
      exactly the accepted jobs finished at or before its ts, measured against the jobs accepted at
      any later point too; no later job changes it. */
  lemma ReadsAreStable<C>(u: Setup<C>, states: seq<State<C>>, steps: seq<Step>, m: nat, n: nat, ts: nat, snap: Snapshot<C>)
    requires Run(u, states, steps) && m <= n <= |steps| && (ts, snap) in states[m].answers
    ensures Replay(u, UpTo(states[n].accepted, ts)) == Some(snap)
  {
    AnswersStay(u, states, steps, m, n);
    RunKeepsInv(u, states, steps, n);
  }

  /** Nothing promised is taken back, and a job that arrives later lies above it. */
  lemma StepKeepsBound<C>(u: Setup<C>, s: State<C>, step: Step, s': State<C>, ts: nat)
    requires Inv(u, s) && Next(u, s, step, s') && ts <= Bound(u, s)
    ensures ts <= Bound(u, s') && UpTo(s'.accepted, ts) == UpTo(s.accepted, ts)
  {
    if step.GetJob? && s'.accepted != s.accepted {
      AppendedAboveBound(u, s, step.job);
      assert (s.accepted + [step.job])[..|s.accepted|] == s.accepted;
    }
  }

  lemma {:induction false} BoundStays<C>(u: Setup<C>, states: seq<State<C>>, steps: seq<Step>, m: nat, n: nat, ts: nat)
    requires Run(u, states, steps) && m <= n <= |steps| && ts <= Bound(u, states[m])
    ensures ts <= Bound(u, states[n]) && UpTo(states[n].accepted, ts) == UpTo(states[m].accepted, ts)
    decreases n
  {
    if m < n {
      BoundStays(u, states, steps, m, n - 1, ts);
      RunKeepsInv(u, states, steps, n - 1);
      StepKeepsBound(u, states[n - 1], steps[n - 1], states[n], ts);
    }
  }

  /** A read that a caller makes at one instant is such an answer: it equals the replay of the accepted
      jobs up to its ts, whatever jobs are accepted later. */
  lemma ReadIsReplay<C>(u: Setup<C>, states: seq<State<C>>, steps: seq<Step>, m: nat, n: nat, ts: nat)
    requires Run(u, states, steps) && m <= n <= |steps| && Read(states[m].st, ts).Found?
    ensures Replay(u, UpTo(states[n].accepted, ts)) == Some(Read(states[m].st, ts).snap)
  {
    RunKeepsInv(u, states, steps, m);
    FoundIsReplay(u, states[m].st.snaps, states[m].accepted, ts);
    BoundStays(u, states, steps, m, n, ts);
  }

  /** A job is accepted if and only if it is done, has a schema version, is not filtered, finished after
      everything the puller has resolved and after the last accepted job, and applies to the schema that
      replaying the accepted jobs gives; the puller stops if only the last is not so. */
  lemma AcceptedIff<C>(u: Setup<C>, states: seq<State<C>>, steps: seq<Step>, n: nat, job: Job)
    requires Run(u, states, steps) && n < |steps| && steps[n] == GetJob(job)
    ensures var s, s' := states[n], states[n + 1];
            var now := Replay(u, s.accepted);
            var due := && job.isDone && job.schemaVersion != 0 && !job.filtered
                       && s.pullerTs < job.finishedTs && Moment(u, s.accepted) < job.finishedTs;
            && now.Some?
            && s'.accepted == (if due && u.apply(now.value.content, job).Some? then s.accepted + [job] else s.accepted)
            && (s'.phase.Failed? <==> due && u.apply(now.value.content, job).None?)
  {
    RunKeepsInv(u, states, steps, n);
    assert Next(u, states[n], steps[n], states[n + 1]);
    LastIsReplay(u, states[n].st.snaps, states[n].accepted);
  }

  lemma LastIsReplay<C>(u: Setup<C>, snaps: seq<Snapshot<C>>, accepted: seq<Job>)
    requires Versions(u, snaps, accepted)
    ensures Replay(u, accepted) == Some(snaps[|snaps| - 1]) && snaps[|snaps| - 1].currentTs == Moment(u, accepted)
  {
    var g := |accepted| + 1 - |snaps|;
    assert accepted[..g + (|snaps| - 1)] == accepted;
  }

  /** A resolved ts or a handled job reaches the storage's resolved ts, and so does what the owner passes on:
      it is there when it is looked at, or is stored next. */
  lemma ResolvedReachesStorage<C>(u: Setup<C>, states: seq<State<C>>, steps: seq<Step>, n: nat)
    requires Run(u, states, steps) && n < |steps|
    ensures steps[n].GetResolved? ==>
              states[n].st.resolvedTs >= steps[n].ts || states[n + 1].phase == Storing(steps[n].ts, false)
    ensures steps[n].GetJob? && states[n + 1].accepted != states[n].accepted ==>
              || states[n].st.resolvedTs >= steps[n].job.finishedTs
              || states[n + 1].phase == Storing(steps[n].job.finishedTs, true)
    ensures steps[n].Store? ==> states[n].phase.Storing? && states[n + 1].st.resolvedTs == states[n].phase.ts
    ensures steps[n].Set? ==> states[n].phase.Setting? && states[n + 1].pullerTs >= states[n].phase.ts
    ensures steps[n].OwnerCheck? ==> states[n].st.resolvedTs >= steps[n].ts || states[n + 1].ownerStore == Some(steps[n].ts)
    ensures steps[n].OwnerStore? ==>
              states[n].ownerStore.Some? && states[n + 1].st.resolvedTs == states[n].ownerStore.value
  {
    assert Next(u, states[n], steps[n], states[n + 1]);
  }

  /** A reader may look if and only if its ts is neither collected nor unresolved, and then gets an answer
      unless every snapshot is newer. */
  lemma ReaderIsAnswered<C>(u: Setup<C>, states: seq<State<C>>, steps: seq<Step>, n: nat, ts: nat)
    requires Run(u, states, steps) && n < |steps|
    ensures steps[n] == ReadCheck(ts) ==> states[n].st.gcTs <= ts <= states[n].st.resolvedTs && ts in states[n + 1].readers
    ensures states[n].st.gcTs <= ts <= states[n].st.resolvedTs ==> exists s' :: Next(u, states[n], ReadCheck(ts), s')
    ensures steps[n] == ReadFind(ts) && states[n].st.snaps != [] && states[n].st.snaps[0].currentTs <= ts ==>
              && |states[n + 1].answers| == |states[n].answers| + 1
              && states[n + 1].answers[|states[n].answers|].0 == ts
  {
    RunKeepsInv(u, states, steps, n);
    assert Next(u, states[n], steps[n], states[n + 1]);
    var s := states[n];
    assert s.st.gcTs <= ts <= s.st.resolvedTs ==> Next(u, s, ReadCheck(ts), s.(readers := s.readers + {ts}));
    if s.st.snaps[0].currentTs <= ts {
      VersionsOrdered(u, s.st.snaps, s.accepted);
      LatestOfSuffix(s.st.snaps, 0, ts);
    }
  }

  lemma {:induction false} CollectedAtMost<C>(u: Setup<C>, states: seq<State<C>>, steps: seq<Step>, n: nat, limit: nat)
    requires Run(u, states, steps) && n <= |steps|
    requires forall i | 0 <= i < n :: steps[i].Collect? ==> steps[i].ts <= limit
    ensures states[n].gcMax <= limit
    decreases n
  {
    if n > 0 {
      CollectedAtMost(u, states, steps, n - 1, limit);
      assert Next(u, states[n - 1], steps[n - 1], states[n]);
    }
  }

  /** As long as the collector is called below the checkpoint, a row at or above the checkpoint never
      meets a collected schema: the mounter reads one below the row's commit ts, and from the storage's
      start on it finds a snapshot or has to wait. */
  lemma RowNeverMeetsCollectedSchema<C>(u: Setup<C>, states: seq<State<C>>, steps: seq<Step>, n: nat,
                                        checkpointTs: nat, commitTs: nat)
    requires Run(u, states, steps) && n <= |steps| && 0 < checkpointTs <= commitTs
    requires forall i | 0 <= i < n :: steps[i].Collect? ==> steps[i].ts <= checkpointTs - 1
    ensures Read(states[n].st, commitTs - 1) != GCed
    ensures commitTs - 1 >= u.startTs ==> Read(states[n].st, commitTs - 1) != NotFound
  {
    RunKeepsInv(u, states, steps, n);
    CollectedAtMost(u, states, steps, n, checkpointTs - 1);
    var snaps := states[n].st.snaps;
    if commitTs - 1 >= u.startTs {
      VersionsOrdered(u, snaps, states[n].accepted);
      LatestOfSuffix(snaps, 0, commitTs - 1);
    }
  }
}
