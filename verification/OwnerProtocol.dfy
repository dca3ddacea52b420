/** The owner's DDL barrier protocol over whole runs: puller, manager, sink, persisted status,
    crashes and restarts.

    A run interleaves the puller goroutine, the sink goroutine and the steps of a tick.  Only the
    status is durable; a crash, or any error a tick returns, loses everything else. */
module OwnerProtocol {
  import opened DdlEvents
  import opened DdlBarrier
  import opened DdlManager
  import opened Prelude

  datatype Status = Status(checkpointTs: nat, minTableBarrierTs: nat)

  /** Where the tick is.  `Saving` holds a status handed to the store but not yet written. */
  datatype Phase = Idle | Draining | Drained | Saving(status: Status)

  /** One life of the owner.  `pulled` counts the upstream jobs the puller has delivered or started
      after, `first` those it started after; `entered` lists the events put into the sink channel in this life. */
  datatype Owner = Owner(manager: Manager, sink: Sink, writing: Option<DdlEvent>, puller: Puller,
                         first: nat, pulled: nat, phase: Phase, entered: seq<DdlEvent>)

  datatype System = System(status: Status, owner: Option<Owner>, executed: seq<DdlEvent>,
                           skipped: set<DdlEvent>, panicked: bool)

  // ---------------------------------------------------------------------------------------------
  // The upstream
  // ---------------------------------------------------------------------------------------------

  predicate Increasing(s: seq<DdlEvent>) {
    forall i, j | 0 <= i < j < |s| :: s[i].id < s[j].id
  }

  /** The jobs that pass the puller's filter, in commit order, with numbered events. */
  ghost predicate UpstreamOk(up: seq<Job>) {
    && (forall i | 0 <= i < |up| :: up[i].id > 0 && up[i].finishedTs > 0 && Increasing(up[i].events))
    && (forall i, j | 0 <= i < j < |up| :: up[i].finishedTs < up[j].finishedTs && up[i].id != up[j].id)
    && (forall i | 0 <= i < |up| :: forall e <- up[i].events :: e.commitTs == up[i].finishedTs)
    && (forall i, j | 0 <= i < j < |up| :: forall e <- up[i].events, f <- up[j].events :: e.id < f.id)
  }

  ghost predicate Within(up: seq<Job>, lo: nat, hi: nat, e: DdlEvent) {
    exists i | lo <= i < hi && i < |up| :: e in up[i].events
  }

  ghost predicate Upstream(up: seq<Job>, e: DdlEvent) {
    Within(up, 0, |up|, e)
  }

  /** An event the changefeed has to execute or skip. */
  predicate Due(e: DdlEvent, startTs: nat) {
    e.commitTs >= startTs && !Dropped(e)
  }

  predicate Finished(s: System, e: DdlEvent) {
    e in s.executed || e in s.skipped
  }

  // ---------------------------------------------------------------------------------------------
  // Steps
  // ---------------------------------------------------------------------------------------------

  function Init(startTs: nat): System {
    System(Status(startTs, startTs), None, [], {}, false)
  }

  /** Where `initialize` starts the DDL puller. */
  function DdlStartTs(st: Status): nat
    requires st.checkpointTs > 0
  {
    if st.checkpointTs == st.minTableBarrierTs then st.checkpointTs - 1 else st.checkpointTs
  }

  ghost predicate FirstAfter(up: seq<Job>, ts: nat, n: nat) {
    && n <= |up|
    && (forall i | 0 <= i < n :: up[i].finishedTs <= ts)
    && (forall i | n <= i < |up| :: ts < up[i].finishedTs)
  }

  /** What the end of a tick asks to be saved: nothing while the barrier is behind the checkpoint or
      the scheduler cannot proceed, else the scheduler's checkpoint and a minimum that never regresses. */
  predicate Outcomes(st: Status, b: Barrier, sched: Option<nat>, phase: Phase) {
    if b.globalTs < st.checkpointTs || sched.None? then phase == Idle
    else
      && st.checkpointTs <= sched.value <= b.minTableTs
      && phase == Saving(Status(sched.value,
                                if b.minTableTs < st.minTableBarrierTs then st.minTableBarrierTs else b.minTableTs))
  }

  datatype Step =
    | PullJob | PullAgain | PullResolved(ts: nat)
    | SinkTake | SinkWrite
    | TickSkip | TickStart | DrainOne | DrainEnd
    | Finish(input: TickInput, m1: Manager, k1: Sink, out: Outcome,
             ddls: seq<DdlEvent>, b: Barrier, otherTs: nat, sched: Option<nat>, phase: Phase)
    | Save | Crash | Start(pulled: nat)

  /** The event skipped by this tick, if any: cleaned without the sink having done it. */
  function SkippedNow(k: Sink, m1: Manager): set<DdlEvent> {
    if m1.justSent.Some? && m1.justSent.value !in k.done then {m1.justSent.value} else {}
  }

  function EnteredNow(k: Sink, k1: Sink): seq<DdlEvent> {
    if |k1.ch| > |k.ch| then [k1.ch[|k1.ch| - 1]] else []
  }

  ghost predicate OwnerStep(up: seq<Job>, s: System, o: Owner, step: Step, s': System) {
    match step
    case PullJob =>
      && o.pulled < |up|
      && s' == s.(owner := Some(o.(puller := Receive(o.puller, JobEntry(up[o.pulled])), pulled := o.pulled + 1)))
    // TiKV may deliver the last job again.
    case PullAgain =>
      && o.first < o.pulled <= |up|
      && s' == s.(owner := Some(o.(puller := Receive(o.puller, JobEntry(up[o.pulled - 1])))))
    case PullResolved(ts) =>
      && (o.pulled < |up| ==> ts < up[o.pulled].finishedTs)
      && s' == s.(owner := Some(o.(puller := Receive(o.puller, ResolvedEntry(ts)))))
    case SinkTake =>
      && o.sink.ch != [] && o.writing.None?
      && s' == s.(owner := Some(o.(sink := o.sink.(ch := o.sink.ch[1..]), writing := Some(o.sink.ch[0]))))
    case SinkWrite =>
      && o.writing.Some?
      && s' == s.(owner := Some(o.(sink := o.sink.(done := o.sink.done + {o.writing.value}), writing := None)),
                  executed := s.executed + [o.writing.value])
    // A tick before the bootstrap messages are out.
    case TickSkip =>
      && o.phase == Idle
      && s' == s.(owner := Some(o.(manager := o.manager.(justSent := None, checkpointTs := s.status.checkpointTs))))
    case TickStart =>
      && o.phase == Idle
      && s' == s.(owner := Some(o.(phase := Draining,
                  manager := o.manager.(justSent := None, checkpointTs := s.status.checkpointTs))))
    case DrainOne =>
      && o.phase == Draining && o.puller.jobs != []
      && s' == s.(owner := Some(o.(puller := o.puller.(jobs := o.puller.jobs[1..]),
                  manager := o.manager.(pending := AddEvents(o.manager.pending, o.puller.jobs[0].events)))))
    case DrainEnd =>
      && o.phase == Draining && o.puller.jobs == []
      && s' == s.(owner := Some(o.(phase := Drained)))
    case Finish(input, m1, k1, out, ddls, b, otherTs, sched, phase) =>
      && o.phase == Drained && WellFormed(o.manager)
      && Advance(o.manager, o.sink, PullerResolved(o.puller), input, m1, k1, out)
      && if out.Panic? then s' == s.(owner := None, panicked := true)
         else
           && Considered(m1, ddls) && BarrierOf(m1.ddlResolvedTs, ddls, input.redoOn, b)
           && Outcomes(s.status, LowerBarrier(b, otherTs), sched, phase)
           && s' == s.(owner := Some(o.(manager := m1.(justSent := None), sink := k1, phase := phase,
                                        entered := o.entered + EnteredNow(o.sink, k1))),
                       skipped := s.skipped + SkippedNow(o.sink, m1))
    case Save =>
      && o.phase.Saving?
      && s' == s.(status := o.phase.status, owner := Some(o.(phase := Idle)))
    case Crash => s' == s.(owner := None)
    case Start(_) => false
  }

  ghost predicate Next(up: seq<Job>, s: System, step: Step, s': System) {
    if s.owner.Some? then OwnerStep(up, s, s.owner.value, step, s')
    else
      && step.Start? && s.status.checkpointTs > 0
      && var startTs := DdlStartTs(s.status);
         && FirstAfter(up, startTs, step.pulled)
         && s' == s.(owner := Some(Owner(Manager(map[], None, None, s.status.checkpointTs, startTs),
                                         Sink(map[], [], {}), None, Puller(startTs, [], 0), step.pulled, step.pulled, Idle, [])))
  }

  // ---------------------------------------------------------------------------------------------
  // The invariant
  // ---------------------------------------------------------------------------------------------

  /** The number of upstream jobs handed to the manager, or before its start. */
  function Popped(o: Owner): int {
    o.pulled - |o.puller.jobs|
  }

  /** The puller's queue is a window of the upstream, and nothing below its resolved ts is missing. */
  ghost predicate QueueOk(up: seq<Job>, p: Puller, n: int, pulled: nat, ddlResolvedTs: nat) {
    && 0 <= n <= pulled <= |up|
    && p.jobs == up[n..pulled]
    && (forall i | pulled <= i < |up| :: p.resolvedTs < up[i].finishedTs && p.lastJobId != up[i].id)
    && (forall i | n <= i < |up| :: ddlResolvedTs <= up[i].finishedTs)
  }

  /** The list of a table holds drained events of that table, in order. */
  ghost predicate ListOk(up: seq<Job>, n: nat, name: TableName, list: seq<DdlEvent>) {
    && Increasing(list)
    && forall e <- list :: e.name == name && Within(up, 0, n, e) && !Dropped(e)
  }

  ghost predicate PendingOk(up: seq<Job>, n: nat, p: Pending) {
    forall name <- p :: ListOk(up, n, name, p[name])
  }

  predicate IsPending(p: Pending, e: DdlEvent) {
    e in EventsOf(p, e.name)
  }

  /** Whatever is still to come is at or above `min`. */
  ghost predicate AboveMin(up: seq<Job>, startTs: nat, n: nat, p: Pending, min: nat) {
    && (forall e :: IsPending(p, e) ==> min <= e.commitTs)
    && (forall i | n <= i < |up| :: forall e <- up[i].events :: Due(e, startTs) ==> min <= e.commitTs)
  }

  /** No due event is lost: it is finished, pending or not yet drained. */
  ghost predicate Covered(up: seq<Job>, startTs: nat, s: System, n: nat, p: Pending) {
    forall e | Within(up, 0, n, e) && Due(e, startTs) && !Finished(s, e) :: IsPending(p, e)
  }

  /** Handed to the sink and not yet executed. */
  predicate InFlight(k: Sink, d: DdlEvent) {
    d in k.sent && k.sent[d] == d.commitTs && d !in k.done
  }

  /** The sink works on nothing but the executing event, whose turn it is. */
  predicate SinkOk(executing: Option<DdlEvent>, k: Sink, writing: Option<DdlEvent>, s: System) {
    && |k.ch| <= 1 && (writing.Some? ==> k.ch == [])
    && (k.ch != [] ==> executing == Some(k.ch[0]) && InFlight(k, k.ch[0]))
    && (writing.Some? ==> executing == writing && InFlight(k, writing.value))
    && (forall d <- k.sent :: executing == Some(d))
    && (forall d <- k.done :: d in s.executed)
    && (executing.Some? ==> executing.value.commitTs <= s.status.checkpointTs)
  }

  predicate Distinct(s: seq<DdlEvent>) {
    forall i, j | 0 <= i < j < |s| :: s[i] != s[j]
  }

  /** An event that entered the channel is the executing one, remembered as sent, or gone for good. */
  ghost predicate EnteredOk(up: seq<Job>, n: nat, m: Manager, k: Sink, entered: seq<DdlEvent>) {
    && Distinct(entered)
    && (forall d <- k.sent :: d in entered) && (forall d <- k.done :: d in entered)
    && forall e <- entered ::
         && Within(up, 0, n, e)
         && if m.executing == Some(e) then e in k.sent && k.sent[e] == e.commitTs
            else !IsPending(m.pending, e)
  }

  ghost predicate PhaseOk(up: seq<Job>, startTs: nat, st: Status, n: nat, m: Manager, phase: Phase) {
    && (phase.Draining? || phase.Drained? ==> m.checkpointTs == st.checkpointTs && m.justSent.None?)
    && (phase.Saving? ==>
          && st.checkpointTs <= phase.status.checkpointTs <= phase.status.minTableBarrierTs
          && st.minTableBarrierTs <= phase.status.minTableBarrierTs
          && AboveMin(up, startTs, n, m.pending, phase.status.minTableBarrierTs))
  }

  ghost predicate OwnerOk(up: seq<Job>, startTs: nat, s: System, o: Owner) {
    var n, m := Popped(o), o.manager;
    && QueueOk(up, o.puller, n, o.pulled, m.ddlResolvedTs)
    && (forall i | n <= i < |up| :: startTs <= up[i].finishedTs)
    && WellFormed(m) && PendingOk(up, n, m.pending)
    && AboveMin(up, startTs, n, m.pending, s.status.minTableBarrierTs)
    && Covered(up, startTs, s, n, m.pending)
    && SinkOk(m.executing, o.sink, o.writing, s)
    && EnteredOk(up, n, m, o.sink, o.entered)
    && PhaseOk(up, startTs, s.status, n, m, o.phase)
  }

  predicate InOrder(s: seq<DdlEvent>) {
    forall i, j | 0 <= i < j < |s| :: s[i].commitTs <= s[j].commitTs
  }

  /** What survives a crash. */
  ghost predicate DurableOk(up: seq<Job>, startTs: nat, s: System) {
    && 0 < s.status.checkpointTs <= s.status.minTableBarrierTs && startTs <= s.status.checkpointTs
    && (forall e :: Finished(s, e) ==> e.commitTs <= s.status.checkpointTs)
    && InOrder(s.executed)
    && UnfinishedAbove(up, startTs, s, s.status.minTableBarrierTs)
  }

  ghost predicate UnfinishedAbove(up: seq<Job>, startTs: nat, s: System, min: nat) {
    forall e | Upstream(up, e) && Due(e, startTs) && !Finished(s, e) :: min <= e.commitTs
  }

  ghost predicate Inv(up: seq<Job>, startTs: nat, s: System) {
    && !s.panicked
    && DurableOk(up, startTs, s)
    && (s.owner.Some? ==> OwnerOk(up, startTs, s, s.owner.value))
  }

  /** The puller knows the last job it was given in this life. */
  ghost predicate LastJobKnown(up: seq<Job>, s: System) {
    s.owner.Some? ==>
      var o := s.owner.value; o.first < o.pulled <= |up| ==> o.puller.lastJobId == up[o.pulled - 1].id
  }

  // ---------------------------------------------------------------------------------------------
  // Facts about the upstream and the pending lists
  // ---------------------------------------------------------------------------------------------

  lemma WithinGrows(up: seq<Job>, lo: nat, hi: nat, hi': nat, e: DdlEvent)
    requires Within(up, lo, hi, e) && (hi <= hi' || hi' == |up|)
    ensures Within(up, lo, hi', e)
  {
  }

  /** Commit timestamps follow event numbers. */
  lemma CommitFollowsId(up: seq<Job>, e: DdlEvent, f: DdlEvent)
    requires UpstreamOk(up) && Upstream(up, e) && Upstream(up, f) && e.id <= f.id
    ensures e.commitTs <= f.commitTs
  {
    var i :| 0 <= i < |up| && e in up[i].events;
    var j :| 0 <= j < |up| && f in up[j].events;
    assert j < i ==> f.id < e.id;
  }

  lemma IdBelowUndrained(up: seq<Job>, n: nat, e: DdlEvent, f: DdlEvent)
    requires UpstreamOk(up) && Within(up, 0, n, e) && n < |up| && f in up[n].events
    ensures e.id < f.id
  {
    var i :| 0 <= i < n && i < |up| && e in up[i].events;
  }

  lemma {:induction false} NamedIncreasing(events: seq<DdlEvent>, name: TableName)
    requires Increasing(events)
    ensures Increasing(Named(events, name))
    decreases |events|
  {
    if events != [] {
      var init, d := events[..|events| - 1], events[|events| - 1];
      NamedIncreasing(init, name);
      var r := Named(init, name);
      forall k | 0 <= k < |r|
        ensures r[k].id < d.id
      {
        NamedMembers(init, name, r[k]);
      }
    }
  }

  /** Every pending event is at or after the head of its list. */
  lemma HeadIsLeast(up: seq<Job>, n: nat, p: Pending, e: DdlEvent) returns (h: DdlEvent)
    requires UpstreamOk(up) && PendingOk(up, n, p) && IsPending(p, e)
    ensures IsHead(p, h) && h.commitTs <= e.commitTs
  {
    var list := p[e.name];
    h := list[0];
    var k :| 0 <= k < |list| && list[k] == e;
    assert ListOk(up, n, e.name, list) && h in list;
    WithinGrows(up, 0, n, |up|, h);
    WithinGrows(up, 0, n, |up|, e);
    CommitFollowsId(up, h, e);
  }

  /** The executing event is pending. */
  lemma ExecutingIsPending(m: Manager)
    requires ExecutingIsHead(m) && m.executing.Some?
    ensures IsPending(m.pending, m.executing.value)
  {
    var d := m.executing.value;
    assert m.pending[d.name][0] == d;
  }

  // ---------------------------------------------------------------------------------------------
  // Each step keeps the invariant
  // ---------------------------------------------------------------------------------------------

  lemma PullJobKeepsQueue(up: seq<Job>, p: Puller, n: int, pulled: nat, ddlResolvedTs: nat)
    requires UpstreamOk(up) && QueueOk(up, p, n, pulled, ddlResolvedTs) && pulled < |up|
    ensures QueueOk(up, Receive(p, JobEntry(up[pulled])), n, pulled + 1, ddlResolvedTs)
  {
    assert up[n..pulled] + [up[pulled]] == up[n..pulled + 1];
  }

  lemma PullerKeepsInv(up: seq<Job>, startTs: nat, s: System, step: Step, s': System)
    requires UpstreamOk(up) && Inv(up, startTs, s) && s.owner.Some? && Next(up, s, step, s')
    requires (step.PullJob? || step.PullAgain? || step.PullResolved?) && LastJobKnown(up, s)
    ensures Inv(up, startTs, s')
  {
    var o, o' := s.owner.value, s'.owner.value;
    if step.PullJob? {
      PullJobKeepsQueue(up, o.puller, Popped(o), o.pulled, o.manager.ddlResolvedTs);
    }
    assert Popped(o') == Popped(o);
  }

  lemma SinkWriteKeepsInv(up: seq<Job>, startTs: nat, s: System, s': System)
    requires UpstreamOk(up) && Inv(up, startTs, s) && s.owner.Some? && Next(up, s, SinkWrite, s')
    ensures Inv(up, startTs, s')
  {
    var o, o' := s.owner.value, s'.owner.value;
    var d := o.writing.value;
    assert Popped(o') == Popped(o);
    ExecutingIsPending(o.manager);
    assert forall e :: Finished(s', e) <==> Finished(s, e) || e == d;
    forall i | 0 <= i < |s.executed|
      ensures s.executed[i].commitTs <= d.commitTs
    {
      assert Finished(s, s.executed[i]);
    }
  }

  lemma QuietStepsKeepInv(up: seq<Job>, startTs: nat, s: System, step: Step, s': System)
    requires UpstreamOk(up) && Inv(up, startTs, s) && s.owner.Some? && Next(up, s, step, s')
    requires step.SinkTake? || step.TickSkip? || step.TickStart? || step.DrainEnd? || step.Crash?
    ensures Inv(up, startTs, s')
  {
    assert forall e :: Finished(s', e) <==> Finished(s, e);
    if !step.Crash? {
      assert Popped(s'.owner.value) == Popped(s.owner.value);
    }
  }

  lemma DrainKeepsList(up: seq<Job>, n: nat, name: TableName, list: seq<DdlEvent>)
    requires UpstreamOk(up) && n < |up| && ListOk(up, n, name, list)
    ensures ListOk(up, n + 1, name, list + Named(up[n].events, name))
  {
    var added := Named(up[n].events, name);
    NamedIncreasing(up[n].events, name);
    forall f <- added
      ensures f in up[n].events && f.name == name && !Dropped(f)
    {
      NamedMembers(up[n].events, name, f);
    }
    forall a, b | 0 <= a < |list| && 0 <= b < |added|
      ensures list[a].id < added[b].id
    {
      IdBelowUndrained(up, n, list[a], added[b]);
    }
  }

  lemma DrainKeepsPending(up: seq<Job>, n: nat, m: Manager, m': Manager)
    requires UpstreamOk(up) && n < |up| && WellFormed(m) && PendingOk(up, n, m.pending)
    requires m' == m.(pending := AddEvents(m.pending, up[n].events))
    ensures WellFormed(m') && PendingOk(up, n + 1, m'.pending)
    ensures forall e :: IsPending(m'.pending, e) <==> IsPending(m.pending, e) || (e in up[n].events && !Dropped(e))
  {
    forall name <- m'.pending
      ensures ListOk(up, n + 1, name, m'.pending[name])
    {
      AddEventsAppends(m.pending, up[n].events, name);
      DrainKeepsList(up, n, name, EventsOf(m.pending, name));
    }
    forall e: DdlEvent
      ensures IsPending(m'.pending, e) <==> IsPending(m.pending, e) || (e in up[n].events && !Dropped(e))
    {
      AddEventsAppends(m.pending, up[n].events, e.name);
      NamedMembers(up[n].events, e.name, e);
    }
    if m.executing.Some? {
      var d := m.executing.value;
      AddEventsAppends(m.pending, up[n].events, d.name);
      assert EventsOf(m'.pending, d.name)[0] == d;
    }
  }

  lemma DrainKeepsEntered(up: seq<Job>, n: nat, m: Manager, m': Manager, k: Sink, entered: seq<DdlEvent>)
    requires UpstreamOk(up) && n < |up| && EnteredOk(up, n, m, k, entered) && m'.executing == m.executing
    requires forall e :: IsPending(m'.pending, e) ==> IsPending(m.pending, e) || e in up[n].events
    ensures EnteredOk(up, n + 1, m', k, entered)
  {
    forall e <- entered
      ensures Within(up, 0, n + 1, e) && e !in up[n].events
    {
      WithinGrows(up, 0, n, n + 1, e);
      if e in up[n].events {
        IdBelowUndrained(up, n, e, e);
      }
    }
  }

  lemma DrainKeepsCoverage(up: seq<Job>, startTs: nat, s: System, n: nat, p: Pending, p': Pending)
    requires n < |up| && Covered(up, startTs, s, n, p)
    requires forall e :: IsPending(p', e) <==> IsPending(p, e) || (e in up[n].events && !Dropped(e))
    ensures Covered(up, startTs, s, n + 1, p')
  {
    forall e | Within(up, 0, n + 1, e) && Due(e, startTs) && !Finished(s, e)
      ensures IsPending(p', e)
    {
      assert e in up[n].events || Within(up, 0, n, e);
    }
  }

  /** A drained job is at or above the bound: its due events were, and the others are not kept. */
  lemma DrainKeepsBound(up: seq<Job>, startTs: nat, n: nat, p: Pending, p': Pending, min: nat)
    requires UpstreamOk(up) && n < |up| && AboveMin(up, startTs, n, p, min)
    requires forall e :: IsPending(p', e) <==> IsPending(p, e) || (e in up[n].events && !Dropped(e))
    requires up[n].finishedTs >= startTs
    ensures AboveMin(up, startTs, n + 1, p', min)
  {
  }

  lemma DrainKeepsQueue(up: seq<Job>, p: Puller, n: nat, pulled: nat, ddlResolvedTs: nat)
    requires QueueOk(up, p, n, pulled, ddlResolvedTs) && p.jobs != []
    ensures p.jobs[0] == up[n] && n < |up| && QueueOk(up, p.(jobs := p.jobs[1..]), n + 1, pulled, ddlResolvedTs)
  {
    assert p.jobs[1..] == up[n + 1..pulled];
  }

  lemma DrainKeepsSink(m: Manager, m': Manager, k: Sink, writing: Option<DdlEvent>, s: System, s': System)
    requires SinkOk(m.executing, k, writing, s) && m'.executing == m.executing
    requires s'.executed == s.executed && s'.status == s.status
    ensures SinkOk(m'.executing, k, writing, s')
  {
  }

  lemma DrainOneKeepsInv(up: seq<Job>, startTs: nat, s: System, s': System)
    requires UpstreamOk(up) && Inv(up, startTs, s) && s.owner.Some? && Next(up, s, DrainOne, s')
    ensures Inv(up, startTs, s')
  {
    var o, o' := s.owner.value, s'.owner.value;
    var n := Popped(o);
    DrainKeepsQueue(up, o.puller, n, o.pulled, o.manager.ddlResolvedTs);
    DrainKeepsSink(o.manager, o'.manager, o.sink, o.writing, s, s');
    assert Popped(o') == n + 1;
    assert forall e :: Finished(s', e) <==> Finished(s, e);
    DrainKeepsPending(up, n, o.manager, o'.manager);
    DrainKeepsEntered(up, n, o.manager, o'.manager, o.sink, o.entered);
    DrainKeepsCoverage(up, startTs, s, n, o.manager.pending, o'.manager.pending);
    DrainKeepsBound(up, startTs, n, o.manager.pending, o'.manager.pending, s.status.minTableBarrierTs);
  }

  /** In the presence of an owner, unfinished events are bounded because they are pending or ahead. */
  lemma CoverageBounds(up: seq<Job>, startTs: nat, s: System, n: nat, p: Pending, min: nat)
    requires AboveMin(up, startTs, n, p, min) && Covered(up, startTs, s, n, p)
    ensures UnfinishedAbove(up, startTs, s, min)
  {
    forall e | Upstream(up, e) && Due(e, startTs) && !Finished(s, e)
      ensures min <= e.commitTs
    {
      var i :| 0 <= i < |up| && e in up[i].events;
      if i < n {
        assert Within(up, 0, n, e);
      }
    }
  }

  lemma SaveKeepsInv(up: seq<Job>, startTs: nat, s: System, s': System)
    requires UpstreamOk(up) && Inv(up, startTs, s) && s.owner.Some? && Next(up, s, Save, s')
    ensures Inv(up, startTs, s')
  {
    var o, o' := s.owner.value, s'.owner.value;
    assert Popped(o') == Popped(o);
    assert forall e :: Finished(s', e) <==> Finished(s, e);
    CoverageBounds(up, startTs, s', Popped(o'), o'.manager.pending, s'.status.minTableBarrierTs);
  }

  /** A restart resumes below every unfinished event, and above every finished one unless the
      checkpoint may still be at a DDL. */
  lemma StartKeepsInv(up: seq<Job>, startTs: nat, s: System, step: Step, s': System)
    requires UpstreamOk(up) && Inv(up, startTs, s) && s.owner.None? && Next(up, s, step, s')
    ensures Inv(up, startTs, s')
  {
    var o' := s'.owner.value;
    var from := DdlStartTs(s.status);
    assert Popped(o') == step.pulled && o'.puller.jobs == up[step.pulled..step.pulled];
    assert forall e :: Finished(s', e) <==> Finished(s, e);
    forall e | Within(up, 0, step.pulled, e) && Due(e, startTs)
      ensures Finished(s', e)
    {
      var i :| 0 <= i < step.pulled && i < |up| && e in up[i].events;
      assert Upstream(up, e);
    }
    forall i, e | step.pulled <= i < |up| && e in up[i].events && Due(e, startTs)
      ensures s.status.minTableBarrierTs <= e.commitTs
    {
      assert Upstream(up, e);
    }
  }

  // The end of a tick ---------------------------------------------------------------------------

  /** The next event is pending, so its commit ts is at or above the checkpoint: no panic. */
  lemma NeverPanics(m: Manager, k: Sink, ddlRts: nat, i: TickInput, m1: Manager, k1: Sink, out: Outcome)
    requires WellFormed(m) && Advance(m, k, ddlRts, i, m1, k1, out)
    requires forall e :: IsPending(m.pending, e) ==> m.checkpointTs <= e.commitTs
    ensures out == Done
  {
    var r := AfterResolved(m, ddlRts, i);
    var next :| AdvanceWith(r, AfterGetNext(r), k, next, i, m1, k1, out);
    if next.Some? {
      NextIsHead(r, next.value);
      ExecutingIsPending(r.(executing := next));
    }
  }

  ghost predicate SameLists(p: Pending, p': Pending) {
    forall name :: EventsOf(p', name) == EventsOf(p, name)
  }

  /** `d` leaves the front of its list; the other lists stay. */
  ghost predicate Removed(p: Pending, p': Pending, d: DdlEvent) {
    && EventsOf(p, d.name) == [d] + EventsOf(p', d.name)
    && forall name :: name != d.name ==> EventsOf(p', name) == EventsOf(p, name)
  }

  /** What the middle of a tick can do to the lists and the sink, stated without its internals. */
  datatype Move = Nothing | Offer(d: DdlEvent) | Take(d: DdlEvent)

  ghost predicate Moved(m: Manager, k: Sink, i: TickInput, m1: Manager, k1: Sink, move: Move) {
    match move
    case Nothing =>
      k1 == k && m1.executing == m.executing && SameLists(m.pending, m1.pending) && m1.justSent == m.justSent
    case Offer(d) =>
      && d !in k.done && m1.executing == Some(d) && SameLists(m.pending, m1.pending) && m1.justSent == m.justSent
      && k1 == AfterEmit(k, d)
    case Take(d) =>
      && (d in k.done || (m.executing.None? && ShouldSkip(d, i.bdrMode)))
      && m1.executing == None && m1.justSent == Some(d) && Removed(m.pending, m1.pending, d)
      && k1.ch == k.ch && k1.done == k.done
      && (k1.sent == k.sent - {d} || (m.executing.None? && k1.sent == k.sent))
  }

  /** A move concerns the head whose turn it is. */
  predicate Turn(m: Manager, d: DdlEvent) {
    && (m.executing == None || m.executing == Some(d))
    && d.commitTs == m.checkpointTs
    && EventsOf(m.pending, d.name) != [] && EventsOf(m.pending, d.name)[0] == d
  }

  predicate MoveOk(m: Manager, move: Move) {
    move.Nothing? || Turn(m, move.d)
  }

  lemma ExecMoves(m: Manager, k: Sink, d: DdlEvent, i: TickInput) returns (move: Move)
    requires WellFormed(m) && (m.executing == None || m.executing == Some(d))
    requires ExecutingIsHead(m.(executing := Some(d))) && m.checkpointTs == d.commitTs
    ensures var (m1, k1) := AfterExec(m, k, d, i);
            && MoveOk(m, move) && Moved(m, k, i, m1, k1, move) && WellFormed(m1)
            && m1.ddlResolvedTs == m.ddlResolvedTs && m1.checkpointTs == m.checkpointTs
  {
    var (m1, k1) := AfterExec(m, k, d, i);
    if m1.executing.None? {
      move := Take(d);
      assert m.pending[d.name] == [d] + m.pending[d.name][1..];
    } else {
      move := Offer(d);
    }
  }

  lemma MovedFromSame(m: Manager, m0: Manager, k: Sink, i: TickInput, m1: Manager, k1: Sink, move: Move)
    requires Moved(m0, k, i, m1, k1, move) && MoveOk(m0, move)
    requires SameLists(m.pending, m0.pending) && m0.executing == m.executing && m0.justSent == m.justSent
    requires m0.checkpointTs == m.checkpointTs
    ensures Moved(m, k, i, m1, k1, move) && MoveOk(m, move)
  {
  }

  lemma AdvanceMoves(m: Manager, k: Sink, ddlRts: nat, i: TickInput, m1: Manager, k1: Sink) returns (move: Move)
    requires WellFormed(m) && Advance(m, k, ddlRts, i, m1, k1, Done)
    ensures MoveOk(m, move) && Moved(m, k, i, m1, k1, move) && WellFormed(m1)
    ensures m1.ddlResolvedTs == AfterResolved(m, ddlRts, i).ddlResolvedTs && m1.checkpointTs == m.checkpointTs
  {
    var r := AfterResolved(m, ddlRts, i);
    var r' := AfterGetNext(r);
    var next :| AdvanceWith(r, r', k, next, i, m1, k1, Done);
    assert SameLists(m.pending, r'.pending);
    move := Nothing;
    if next.Some? && ShouldExec(r', next.value, i) {
      NextIsHead(r, next.value);
      move := ExecMoves(r', k, next.value, i);
      MovedFromSame(m, r', k, i, m1, k1, move);
    }
  }

  lemma MoveKeepsPending(up: seq<Job>, n: nat, m: Manager, k: Sink, i: TickInput, m1: Manager, k1: Sink, move: Move)
    requires PendingOk(up, n, m.pending) && MoveOk(m, move) && Moved(m, k, i, m1, k1, move)
    ensures PendingOk(up, n, m1.pending)
    ensures forall e :: IsPending(m.pending, e) <==> IsPending(m1.pending, e) || (move.Take? && e == move.d)
    ensures move.Take? ==> !IsPending(m1.pending, move.d)
  {
    forall name <- m1.pending
      ensures ListOk(up, n, name, m1.pending[name])
    {
      assert m1.pending[name] == EventsOf(m1.pending, name);
      assert ListOk(up, n, name, EventsOf(m.pending, name));
      if move.Take? && name == move.d.name {
        var list := EventsOf(m.pending, name);
        assert m1.pending[name] == list[1..];
      }
    }
    if move.Take? {
      var list := EventsOf(m.pending, move.d.name);
      assert ListOk(up, n, move.d.name, list);
      assert EventsOf(m1.pending, move.d.name) == list[1..];
    }
  }

  lemma MoveKeepsEntered(up: seq<Job>, n: nat, m: Manager, k: Sink, i: TickInput, m1: Manager, k1: Sink, move: Move,
                         entered: seq<DdlEvent>)
    requires WellFormed(m) && PendingOk(up, n, m.pending) && MoveOk(m, move) && Moved(m, k, i, m1, k1, move)
    requires EnteredOk(up, n, m, k, entered)
    ensures EnteredOk(up, n, m1, k1, entered + EnteredNow(k, k1))
  {
    MoveKeepsPending(up, n, m, k, i, m1, k1, move);
    if !move.Nothing? {
      var d := move.d;
      assert IsPending(m.pending, d) by { assert EventsOf(m.pending, d.name)[0] == d; }
      assert ListOk(up, n, d.name, EventsOf(m.pending, d.name));
      if d in entered {
        assert m.executing == Some(d) && SentTs(k, d) == d.commitTs;
        assert EnteredNow(k, k1) == [];
      }
    }
  }

  lemma MoveKeepsSink(m: Manager, k: Sink, i: TickInput, m1: Manager, k1: Sink, move: Move,
                      writing: Option<DdlEvent>, s: System, s': System)
    requires MoveOk(m, move) && Moved(m, k, i, m1, k1, move) && SinkOk(m.executing, k, writing, s)
    requires m.checkpointTs == s.status.checkpointTs && s'.status == s.status && s'.executed == s.executed
    ensures SinkOk(m1.executing, k1, writing, s')
  {
  }

  /** A removed event is finished: done by the sink, or recorded as skipped. */
  lemma MoveKeepsCoverage(up: seq<Job>, startTs: nat, s: System, s': System, n: nat,
                          m: Manager, k: Sink, i: TickInput, m1: Manager, k1: Sink, move: Move)
    requires PendingOk(up, n, m.pending) && MoveOk(m, move) && Moved(m, k, i, m1, k1, move)
    requires Covered(up, startTs, s, n, m.pending) && m.justSent.None?
    requires forall d <- k.done :: d in s.executed
    requires s'.executed == s.executed && s'.skipped == s.skipped + SkippedNow(k, m1)
    ensures Covered(up, startTs, s', n, m1.pending)
    ensures forall e :: Finished(s, e) ==> Finished(s', e)
    ensures forall e :: Finished(s', e) ==> Finished(s, e) || (move.Take? && e == move.d)
    ensures move.Take? ==> Finished(s', move.d)
  {
    MoveKeepsPending(up, n, m, k, i, m1, k1, move);
  }

  /** The new bound lies at or below everything still to come. */
  lemma BarrierBelowPending(up: seq<Job>, startTs: nat, n: nat, m1: Manager, redoOn: bool,
                            ddls: seq<DdlEvent>, b: Barrier)
    requires UpstreamOk(up) && PendingOk(up, n, m1.pending)
    requires forall i | n <= i < |up| :: m1.ddlResolvedTs <= up[i].finishedTs
    requires Considered(m1, ddls) && BarrierOf(m1.ddlResolvedTs, ddls, redoOn, b)
    ensures AboveMin(up, startTs, n, m1.pending, b.minTableTs)
  {
    forall e | IsPending(m1.pending, e)
      ensures b.minTableTs <= e.commitTs
    {
      var h := HeadIsLeast(up, n, m1.pending, e);
      assert h in ddls && Any()(h);
    }
    assert b.minTableTs <= m1.ddlResolvedTs;
  }

  lemma AboveMinOfBoth(up: seq<Job>, startTs: nat, n: nat, p: Pending, a: nat, b: nat, c: nat)
    requires AboveMin(up, startTs, n, p, a) && AboveMin(up, startTs, n, p, b) && (c <= a || c <= b)
    ensures AboveMin(up, startTs, n, p, c)
  {
  }

  lemma OutcomeKeepsPhase(up: seq<Job>, startTs: nat, st: Status, n: nat, m1: Manager, b: Barrier, otherTs: nat,
                          sched: Option<nat>, phase: Phase)
    requires Outcomes(st, LowerBarrier(b, otherTs), sched, phase)
    requires AboveMin(up, startTs, n, m1.pending, b.minTableTs)
    requires AboveMin(up, startTs, n, m1.pending, st.minTableBarrierTs)
    ensures PhaseOk(up, startTs, st, n, m1.(justSent := None), phase)
  {
    if phase.Saving? {
      AboveMinOfBoth(up, startTs, n, m1.pending, b.minTableTs, st.minTableBarrierTs, phase.status.minTableBarrierTs);
    }
  }

  /** Reading the puller's resolved ts keeps the manager's one at or below every undrained job. */
  lemma ResolvedStaysBelow(up: seq<Job>, p: Puller, n: nat, pulled: nat, m: Manager, i: TickInput)
    requires UpstreamOk(up) && QueueOk(up, p, n, pulled, m.ddlResolvedTs)
    ensures QueueOk(up, p, n, pulled, AfterResolved(m, PullerResolved(p), i).ddlResolvedTs)
  {
    if p.jobs != [] {
      assert p.jobs[0] == up[n];
    }
  }

  lemma FinishKeepsInv(up: seq<Job>, startTs: nat, s: System, step: Step, s': System)
    requires UpstreamOk(up) && Inv(up, startTs, s) && s.owner.Some? && step.Finish? && Next(up, s, step, s')
    ensures Inv(up, startTs, s')
  {
    var o, n := s.owner.value, Popped(s.owner.value);
    var m, k, m1, k1 := o.manager, o.sink, step.m1, step.k1;
    NeverPanics(m, k, PullerResolved(o.puller), step.input, m1, k1, step.out);
    var o' := s'.owner.value;
    assert Popped(o') == n;
    var move := AdvanceMoves(m, k, PullerResolved(o.puller), step.input, m1, k1);
    ResolvedStaysBelow(up, o.puller, n, o.pulled, m, step.input);
    MoveKeepsPending(up, n, m, k, step.input, m1, k1, move);
    MoveKeepsEntered(up, n, m, k, step.input, m1, k1, move, o.entered);
    MoveKeepsSink(m, k, step.input, m1, k1, move, o.writing, s, s');
    MoveKeepsCoverage(up, startTs, s, s', n, m, k, step.input, m1, k1, move);
    BarrierBelowPending(up, startTs, n, m1, step.input.redoOn, step.ddls, step.b);
    OutcomeKeepsPhase(up, startTs, s.status, n, m1, step.b, step.otherTs, step.sched, step.phase);
    CoverageBounds(up, startTs, s', n, m1.pending, s.status.minTableBarrierTs);
  }

  lemma StepKeepsLastJob(up: seq<Job>, s: System, step: Step, s': System)
    requires LastJobKnown(up, s) && Next(up, s, step, s')
    ensures LastJobKnown(up, s')
  {
  }

  lemma StepKeepsInv(up: seq<Job>, startTs: nat, s: System, step: Step, s': System)
    requires UpstreamOk(up) && Inv(up, startTs, s) && LastJobKnown(up, s) && Next(up, s, step, s')
    ensures Inv(up, startTs, s') && LastJobKnown(up, s')
  {
    StepKeepsLastJob(up, s, step, s');
    if s.owner.None? {
      StartKeepsInv(up, startTs, s, step, s');
    } else {
      match step
      case PullJob => PullerKeepsInv(up, startTs, s, step, s');
      case PullAgain => PullerKeepsInv(up, startTs, s, step, s');
      case PullResolved(_) => PullerKeepsInv(up, startTs, s, step, s');
      case SinkWrite => SinkWriteKeepsInv(up, startTs, s, s');
      case DrainOne => DrainOneKeepsInv(up, startTs, s, s');
      case Finish(_, _, _, _, _, _, _, _, _) => FinishKeepsInv(up, startTs, s, step, s');
      case Save => SaveKeepsInv(up, startTs, s, s');
      case SinkTake => QuietStepsKeepInv(up, startTs, s, step, s');
      case TickSkip => QuietStepsKeepInv(up, startTs, s, step, s');
      case TickStart => QuietStepsKeepInv(up, startTs, s, step, s');
      case DrainEnd => QuietStepsKeepInv(up, startTs, s, step, s');
      case Crash => QuietStepsKeepInv(up, startTs, s, step, s');
    }
  }

  // ---------------------------------------------------------------------------------------------
  // Whole runs
  // ---------------------------------------------------------------------------------------------

  ghost predicate Run(up: seq<Job>, startTs: nat, states: seq<System>, steps: seq<Step>) {
    && UpstreamOk(up) && startTs > 0
    && |states| == |steps| + 1 && states[0] == Init(startTs)
    && forall i | 0 <= i < |steps| :: Next(up, states[i], steps[i], states[i + 1])
  }

  lemma {:induction false} RunKeepsInv(up: seq<Job>, startTs: nat, states: seq<System>, steps: seq<Step>, n: nat)
    requires Run(up, startTs, states, steps) && n <= |steps|
    ensures Inv(up, startTs, states[n]) && LastJobKnown(up, states[n])
    decreases n
  {
    if n > 0 {
      RunKeepsInv(up, startTs, states, steps, n - 1);
      StepKeepsInv(up, startTs, states[n - 1], steps[n - 1], states[n]);
    }
  }

  /** In every run of ticks, crashes and restarts, each due DDL not yet executed or skipped lies at
      or above the saved minimum table barrier, which lies at or above the saved checkpoint.  So the
      "checkpointTs is greater than next ddl commitTs" panic is never reached, and a restart from the
      saved status pulls the DDL again. */
  lemma UnfinishedDdlIsNeverPassed(up: seq<Job>, startTs: nat, states: seq<System>, steps: seq<Step>, n: nat, e: DdlEvent)
    requires Run(up, startTs, states, steps) && n <= |steps|
    requires Upstream(up, e) && Due(e, startTs) && !Finished(states[n], e)
    ensures states[n].status.checkpointTs <= states[n].status.minTableBarrierTs <= e.commitTs
    ensures !states[n].panicked
    ensures 0 < states[n].status.checkpointTs && DdlStartTs(states[n].status) < e.commitTs
  {
    RunKeepsInv(up, startTs, states, steps, n);
  }

  /** No due DDL is lost while the owner lives: it is finished, in a pending list, or still ahead of
      the drain loop. */
  lemma NoDdlIsLost(up: seq<Job>, startTs: nat, states: seq<System>, steps: seq<Step>, n: nat, e: DdlEvent)
    requires Run(up, startTs, states, steps) && n <= |steps| && states[n].owner.Some?
    requires Upstream(up, e) && Due(e, startTs) && !Finished(states[n], e)
    ensures var o := states[n].owner.value;
            IsPending(o.manager.pending, e) || (0 <= Popped(o) && Within(up, Popped(o), |up|, e))
  {
    RunKeepsInv(up, startTs, states, steps, n);
    var o := states[n].owner.value;
    var i :| 0 <= i < |up| && e in up[i].events;
    if i < Popped(o) {
      assert Within(up, 0, Popped(o), e);
    }
  }

  /** DDLs reach the downstream in nondecreasing commit order, across restarts too; the executing DDL
      heads its table's list; and within one life an event enters the sink channel at most once. */
  lemma DdlsRunInOrder(up: seq<Job>, startTs: nat, states: seq<System>, steps: seq<Step>, n: nat)
    requires Run(up, startTs, states, steps) && n <= |steps|
    ensures InOrder(states[n].executed)
    ensures states[n].owner.Some? ==>
              ExecutingIsHead(states[n].owner.value.manager) && Distinct(states[n].owner.value.entered)
  {
    RunKeepsInv(up, startTs, states, steps, n);
  }

  /** As long as the owner lives, an event leaves the pending lists only when it is executed or
      skipped. */
  lemma LeavesPendingOnlyWhenFinished(up: seq<Job>, startTs: nat, states: seq<System>, steps: seq<Step>, n: nat, e: DdlEvent)
    requires Run(up, startTs, states, steps) && n < |steps|
    requires states[n].owner.Some? && states[n + 1].owner.Some?
    requires IsPending(states[n].owner.value.manager.pending, e)
    requires !IsPending(states[n + 1].owner.value.manager.pending, e)
    ensures Finished(states[n + 1], e) && steps[n].Finish?
  {
    RunKeepsInv(up, startTs, states, steps, n);
    assert Next(up, states[n], steps[n], states[n + 1]);
    if steps[n].DrainOne? {
      DrainKeepsEvent(up, startTs, states[n], steps[n], states[n + 1], e);
    } else if steps[n].Finish? {
      FinishLeavesPending(up, startTs, states[n], steps[n], states[n + 1], e);
    } else {
      OthersKeepPending(up, states[n], steps[n], states[n + 1]);
    }
  }

  lemma OthersKeepPending(up: seq<Job>, s: System, step: Step, s': System)
    requires s.owner.Some? && s'.owner.Some? && Next(up, s, step, s') && !step.DrainOne? && !step.Finish?
    ensures s'.owner.value.manager.pending == s.owner.value.manager.pending
  {
  }

  lemma DrainKeepsEvent(up: seq<Job>, startTs: nat, s: System, step: Step, s': System, e: DdlEvent)
    requires UpstreamOk(up) && Inv(up, startTs, s) && s.owner.Some? && s'.owner.Some? && Next(up, s, step, s')
    requires step.DrainOne? && IsPending(s.owner.value.manager.pending, e)
    ensures IsPending(s'.owner.value.manager.pending, e)
  {
    var o := s.owner.value;
    assert o.puller.jobs[0] == up[Popped(o)];
    DrainKeepsPending(up, Popped(o), o.manager, s'.owner.value.manager);
  }

  lemma FinishLeavesPending(up: seq<Job>, startTs: nat, s: System, step: Step, s': System, e: DdlEvent)
    requires UpstreamOk(up) && Inv(up, startTs, s) && s.owner.Some? && s'.owner.Some? && Next(up, s, step, s')
    requires step.Finish? && IsPending(s.owner.value.manager.pending, e) && !IsPending(s'.owner.value.manager.pending, e)
    ensures Finished(s', e)
  {
    var o := s.owner.value;
    var move := AdvanceMoves(o.manager, o.sink, PullerResolved(o.puller), step.input, step.m1, step.k1);
    MoveKeepsCoverage(up, startTs, s, s', Popped(o), o.manager, o.sink, step.input, step.m1, step.k1, move);
    MoveKeepsPending(up, Popped(o), o.manager, o.sink, step.input, step.m1, step.k1, move);
  }
}
