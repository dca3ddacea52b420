/** What the owner's ticks do to one DDL over a run, said on the fields of the event: which events are set
    aside, that an event whose turn has come reaches the sink, what redo makes it wait for, which tables
    the barrier of the tick holds, and which events a restart repeats. */
module OwnerProgress {
  import opened BarrierByFields
  import opened DdlBarrier
  import opened DdlEvents
  import opened DdlManager
  import opened OwnerProtocol
  import opened Prelude

  /** What redo asks of a tick that is to work on an event at the checkpoint. */
  predicate RedoAllows(input: TickInput, checkpointTs: nat, ddlResolvedTs: nat) {
    input.redoOn ==> input.redoCheckpointTs == checkpointTs && checkpointTs <= ddlResolvedTs
  }

  lemma FinishGuard(up: seq<Job>, s: System, step: Step, s': System)
    requires s.owner.Some? && step.Finish? && Next(up, s, step, s')
    ensures var o := s.owner.value;
            && o.phase == Drained && WellFormed(o.manager)
            && Advance(o.manager, o.sink, PullerResolved(o.puller), step.input, step.m1, step.k1, step.out)
            && (step.out == Done ==> s'.owner.Some?)
  {
  }

  lemma DrainedIsReady(up: seq<Job>, startTs: nat, s: System)
    requires Inv(up, startTs, s) && s.owner.Some? && s.owner.value.phase == Drained
    ensures var m := s.owner.value.manager;
            && m.justSent.None? && m.checkpointTs == s.status.checkpointTs
            && forall e :: IsPending(m.pending, e) ==> m.checkpointTs <= e.commitTs
  {
  }

  /** The end of a tick never panics. */
  lemma FinishAdvances(up: seq<Job>, startTs: nat, s: System, step: Step, s': System)
    requires UpstreamOk(up) && Inv(up, startTs, s) && s.owner.Some? && step.Finish? && Next(up, s, step, s')
    ensures s'.owner.Some? && step.out == Done
    ensures var o := s.owner.value;
            && WellFormed(o.manager) && o.manager.justSent.None? && o.manager.checkpointTs == s.status.checkpointTs
            && Advance(o.manager, o.sink, PullerResolved(o.puller), step.input, step.m1, step.k1, Done)
  {
    var o := s.owner.value;
    FinishGuard(up, s, step, s');
    DrainedIsReady(up, startTs, s);
    NeverPanics(o.manager, o.sink, PullerResolved(o.puller), step.input, step.m1, step.k1, step.out);
  }

  /** It says what happened to the lists. */
  lemma FinishMoves(up: seq<Job>, startTs: nat, s: System, step: Step, s': System) returns (move: Move)
    requires UpstreamOk(up) && Inv(up, startTs, s) && s.owner.Some? && step.Finish? && Next(up, s, step, s')
    ensures s'.owner.Some? && step.out == Done
    ensures var m := s.owner.value.manager;
            && MoveOk(m, move) && Moved(m, s.owner.value.sink, step.input, step.m1, step.k1, move)
            && m.justSent.None? && m.checkpointTs == s.status.checkpointTs
  {
    var o := s.owner.value;
    FinishAdvances(up, startTs, s, step, s');
    move := AdvanceMoves(o.manager, o.sink, PullerResolved(o.puller), step.input, step.m1, step.k1);
  }

  /** An event counts as skipped only at the end of a tick, in its turn, and only if the filter ignores it
      or the changefeed is in BDR mode and the primary cluster did not issue it. */
  lemma SkippedOnlyWhenSetAside(up: seq<Job>, startTs: nat, states: seq<System>, steps: seq<Step>, n: nat, e: DdlEvent)
    requires Run(up, startTs, states, steps) && n < |steps|
    requires e in states[n + 1].skipped && e !in states[n].skipped
    ensures steps[n].Finish? && (e.ignored || (steps[n].input.bdrMode && !e.primary))
    ensures e.commitTs == states[n].status.checkpointTs
  {
    RunKeepsInv(up, startTs, states, steps, n);
    assert Next(up, states[n], steps[n], states[n + 1]);
    var move := FinishMoves(up, startTs, states[n], steps[n], states[n + 1]);
  }

  /** `h` is taken up: set aside at once, or executing and in the channel. */
  predicate TakenUp(s: System, s': System, h: DdlEvent, bdrMode: bool) {
    && s.owner.Some? && s'.owner.Some?
    && var o, o' := s.owner.value, s'.owner.value;
       if h.ignored || (bdrMode && !h.primary) then
         && h in s'.skipped && !IsPending(o'.manager.pending, h) && o'.manager.executing.None?
         && o'.sink == o.sink && o'.entered == o.entered
       else
         && o'.manager.executing == Some(h) && IsPending(o'.manager.pending, h) && s'.skipped == s.skipped
         && o'.sink.ch == [h] && o'.entered == o.entered + [h]
  }

  // The middle of a tick, without the run around it.

  /** Every pending event is at or above the checkpoint, and none is in the sink's hands. */
  ghost predicate Undisturbed(m: Manager, k: Sink) {
    && WellFormed(m) && m.executing.None? && k.ch == [] && 0 < m.checkpointTs
    && (forall name <- m.pending :: Increasing(m.pending[name]))
    && forall e :: IsPending(m.pending, e) ==> m.checkpointTs <= e.commitTs && e !in k.sent && e !in k.done
  }

  lemma NextIsAtCheckpoint(m: Manager, next: Option<DdlEvent>, d: DdlEvent)
    requires WellFormed(m) && m.executing.None? && IsNext(m, next) && IsHead(m.pending, d) && d.commitTs == m.checkpointTs
    requires forall e :: IsPending(m.pending, e) ==> m.checkpointTs <= e.commitTs
    ensures next.Some? && IsHead(m.pending, next.value) && next.value.commitTs == m.checkpointTs
    ensures IsPending(m.pending, next.value) && ExecutingIsHead(m.(executing := next))
  {
    NextIsHead(m, next.value);
    ExecutingIsPending(m.(executing := next));
  }

  lemma ExecTakesUp(m: Manager, k: Sink, h: DdlEvent, i: TickInput)
    requires m.executing.None? && ExecutingIsHead(m.(executing := Some(h))) && WellFormed(m)
    requires Increasing(m.pending[h.name]) && h.commitTs > 0
    requires k.ch == [] && h !in k.sent && h !in k.done
    ensures var (m1, k1) := AfterExec(m, k, h, i); Taken(m, k, h, i.bdrMode, m1, k1)
  {
    assert IsPending(m.pending, h) by { assert m.pending[h.name][0] == h; }
  }

  predicate Taken(m: Manager, k: Sink, h: DdlEvent, bdrMode: bool, m1: Manager, k1: Sink) {
    if h.ignored || (bdrMode && !h.primary) then
      m1.justSent == Some(h) && !IsPending(m1.pending, h) && m1.executing.None? && k1 == k
    else
      m1.executing == Some(h) && IsPending(m1.pending, h) && m1.justSent == m.justSent && k1.ch == [h]
  }

  lemma AdvanceTakesUp(m: Manager, k: Sink, ddlRts: nat, i: TickInput, m1: Manager, k1: Sink, d: DdlEvent)
    returns (h: DdlEvent)
    requires Undisturbed(m, k) && Advance(m, k, ddlRts, i, m1, k1, Done)
    requires IsHead(m.pending, d) && d.commitTs == m.checkpointTs && RedoAllows(i, d.commitTs, m1.ddlResolvedTs)
    ensures IsHead(m.pending, h) && h.commitTs == d.commitTs && Taken(m, k, h, i.bdrMode, m1, k1)
  {
    var r := AfterResolved(m, ddlRts, i);
    var r' := AfterGetNext(r);
    var next :| AdvanceWith(r, r', k, next, i, m1, k1, Done);
    NextIsAtCheckpoint(r, next, d);
    h := next.value;
    assert m1.ddlResolvedTs == r.ddlResolvedTs;
    assert r'.pending[h.name] == m.pending[h.name];
    ExecTakesUp(r', k, h, i);
  }

  lemma AdvanceClears(m: Manager, k: Sink, ddlRts: nat, i: TickInput, m1: Manager, k1: Sink, d: DdlEvent)
    requires WellFormed(m) && Advance(m, k, ddlRts, i, m1, k1, Done) && m.executing == Some(d) && d in k.done
    requires d.commitTs == m.checkpointTs && RedoAllows(i, d.commitTs, m1.ddlResolvedTs)
    ensures m1.executing.None? && m1.justSent == Some(d) && Removed(m.pending, m1.pending, d)
  {
    var r := AfterResolved(m, ddlRts, i);
    var next :| AdvanceWith(r, AfterGetNext(r), k, next, i, m1, k1, Done);
    assert m1.ddlResolvedTs == r.ddlResolvedTs;
    assert m.pending[d.name] == [d] + m.pending[d.name][1..];
  }

  lemma AdvanceHeldBack(m: Manager, k: Sink, ddlRts: nat, i: TickInput, m1: Manager, k1: Sink)
    requires WellFormed(m) && Advance(m, k, ddlRts, i, m1, k1, Done)
    requires !RedoAllows(i, m.checkpointTs, m1.ddlResolvedTs)
    ensures SameLists(m.pending, m1.pending) && m1.executing == m.executing && m1.justSent == m.justSent && k1 == k
  {
    var r := AfterResolved(m, ddlRts, i);
    var next :| AdvanceWith(r, AfterGetNext(r), k, next, i, m1, k1, Done);
    assert m1.ddlResolvedTs == r.ddlResolvedTs;
  }

  lemma IdleIsUndisturbed(up: seq<Job>, startTs: nat, s: System)
    requires UpstreamOk(up) && Inv(up, startTs, s) && s.owner.Some? && s.owner.value.manager.executing.None?
    requires s.owner.value.manager.checkpointTs == s.status.checkpointTs
    ensures Undisturbed(s.owner.value.manager, s.owner.value.sink)
  {
    var o := s.owner.value;
    forall name <- o.manager.pending
      ensures Increasing(o.manager.pending[name])
    {
      assert ListOk(up, Popped(o), name, o.manager.pending[name]);
    }
    forall e | IsPending(o.manager.pending, e)
      ensures o.manager.checkpointTs <= e.commitTs && e !in o.sink.sent && e !in o.sink.done
    {
    }
  }

  /** What the end of a tick leaves behind. */
  lemma FinishIs(up: seq<Job>, s: System, step: Step, s': System)
    requires s.owner.Some? && s'.owner.Some? && step.Finish? && Next(up, s, step, s')
    ensures var o, o' := s.owner.value, s'.owner.value;
            && o'.manager == step.m1.(justSent := None) && o'.sink == step.k1
            && o'.entered == o.entered + EnteredNow(o.sink, step.k1)
            && s'.skipped == s.skipped + SkippedNow(o.sink, step.m1)
            && Considered(step.m1, step.ddls) && BarrierOf(step.m1.ddlResolvedTs, step.ddls, step.input.redoOn, step.b)
  {
  }

  lemma TakenIsTakenUp(s: System, s': System, h: DdlEvent, bdrMode: bool, m1: Manager, k1: Sink)
    requires s.owner.Some? && s'.owner.Some?
    requires var o, o' := s.owner.value, s'.owner.value;
             && o'.manager == m1.(justSent := None) && o'.sink == k1 && o'.entered == o.entered + EnteredNow(o.sink, k1)
             && s'.skipped == s.skipped + SkippedNow(o.sink, m1)
             && o.manager.justSent.None? && o.sink.ch == [] && h !in o.sink.done
             && Taken(o.manager, o.sink, h, bdrMode, m1, k1)
    ensures TakenUp(s, s', h, bdrMode)
  {
  }

  lemma TickTakesTurn(up: seq<Job>, startTs: nat, s: System, step: Step, s': System, d: DdlEvent) returns (h: DdlEvent)
    requires UpstreamOk(up) && Inv(up, startTs, s) && s.owner.Some? && s'.owner.Some? && step.Finish? && Next(up, s, step, s')
    requires s.owner.value.manager.executing.None? && IsHead(s.owner.value.manager.pending, d)
    requires d.commitTs == s.status.checkpointTs
    requires RedoAllows(step.input, d.commitTs, s'.owner.value.manager.ddlResolvedTs)
    ensures IsHead(s.owner.value.manager.pending, h) && h.commitTs == d.commitTs
    ensures TakenUp(s, s', h, step.input.bdrMode)
  {
    var o := s.owner.value;
    FinishAdvances(up, startTs, s, step, s');
    FinishIs(up, s, step, s');
    IdleIsUndisturbed(up, startTs, s);
    h := AdvanceTakesUp(o.manager, o.sink, PullerResolved(o.puller), step.input, step.m1, step.k1, d);
    HeadIsPending(o.manager, h);
    TakenIsTakenUp(s, s', h, step.input.bdrMode, step.m1, step.k1);
  }

  lemma HeadIsPending(m: Manager, h: DdlEvent)
    requires WellFormed(m) && IsHead(m.pending, h)
    ensures IsPending(m.pending, h)
  {
    var name :| name in m.pending && |m.pending[name]| > 0 && m.pending[name][0] == h;
    assert h in m.pending[name];
  }

  // Over a run.

  /** When the checkpoint has reached a head of the pending lists, nothing is executing and redo allows it, the
      tick takes up a head at the checkpoint: an event to be set aside is skipped, any other one enters
      the sink's channel. */
  lemma TurnIsTaken(up: seq<Job>, startTs: nat, states: seq<System>, steps: seq<Step>, n: nat, d: DdlEvent)
    returns (h: DdlEvent)
    requires Run(up, startTs, states, steps) && n < |steps| && steps[n].Finish? && states[n].owner.Some?
    requires states[n + 1].owner.Some?
    requires states[n].owner.value.manager.executing.None? && IsHead(states[n].owner.value.manager.pending, d)
    requires d.commitTs == states[n].status.checkpointTs
    requires RedoAllows(steps[n].input, d.commitTs, states[n + 1].owner.value.manager.ddlResolvedTs)
    ensures IsHead(states[n].owner.value.manager.pending, h) && h.commitTs == d.commitTs
    ensures TakenUp(states[n], states[n + 1], h, steps[n].input.bdrMode)
  {
    RunKeepsInv(up, startTs, states, steps, n);
    assert Next(up, states[n], steps[n], states[n + 1]);
    h := TickTakesTurn(up, startTs, states[n], steps[n], states[n + 1], d);
  }

  /** The sink's goroutine takes the event out of the channel and writes it downstream; then it is done. */
  lemma SinkExecutes(up: seq<Job>, startTs: nat, states: seq<System>, steps: seq<Step>, n: nat)
    requires Run(up, startTs, states, steps) && n < |steps| && states[n].owner.Some? && states[n + 1].owner.Some?
    ensures steps[n].SinkTake? ==>
              && states[n].owner.value.sink.ch != [] && states[n + 1].executed == states[n].executed
              && states[n + 1].owner.value.writing == Some(states[n].owner.value.sink.ch[0])
    ensures steps[n].SinkWrite? ==>
              && states[n].owner.value.writing.Some? && states[n + 1].owner.value.writing.None?
              && states[n + 1].executed == states[n].executed + [states[n].owner.value.writing.value]
              && states[n].owner.value.writing.value in states[n + 1].owner.value.sink.done
    ensures !steps[n].SinkWrite? ==> states[n + 1].executed == states[n].executed
  {
    assert Next(up, states[n], steps[n], states[n + 1]);
  }

  /** When the sink has done the executing event and redo allows it, the tick clears it. */
  lemma DoneIsCleared(up: seq<Job>, startTs: nat, states: seq<System>, steps: seq<Step>, n: nat, d: DdlEvent)
    requires Run(up, startTs, states, steps) && n < |steps| && steps[n].Finish? && states[n].owner.Some?
    requires states[n + 1].owner.Some?
    requires states[n].owner.value.manager.executing == Some(d) && d in states[n].owner.value.sink.done
    requires RedoAllows(steps[n].input, d.commitTs, states[n + 1].owner.value.manager.ddlResolvedTs)
    ensures states[n + 1].owner.value.manager.executing.None? && states[n + 1].skipped == states[n].skipped
    ensures !IsPending(states[n + 1].owner.value.manager.pending, d)
  {
    RunKeepsInv(up, startTs, states, steps, n);
    var s, s', step := states[n], states[n + 1], steps[n];
    assert Next(up, s, step, s');
    var move := FinishMoves(up, startTs, s, step, s');
    var o, i := s.owner.value, step.input;
    ExecutingIsPending(o.manager);
    AdvanceClears(o.manager, o.sink, PullerResolved(o.puller), i, step.m1, step.k1, d);
    MoveKeepsPending(up, Popped(o), o.manager, o.sink, i, step.m1, step.k1, move);
  }

  /** Unless redo allows it, the tick leaves lists, executing event and sink as they are. */
  lemma RedoHoldsBack(up: seq<Job>, startTs: nat, states: seq<System>, steps: seq<Step>, n: nat)
    requires Run(up, startTs, states, steps) && n < |steps| && steps[n].Finish? && states[n].owner.Some?
    requires states[n + 1].owner.Some?
    requires !RedoAllows(steps[n].input, states[n].status.checkpointTs, states[n + 1].owner.value.manager.ddlResolvedTs)
    ensures var o, o' := states[n].owner.value, states[n + 1].owner.value;
            && SameLists(o.manager.pending, o'.manager.pending) && o'.manager.executing == o.manager.executing
            && o'.sink == o.sink && o'.entered == o.entered && states[n + 1].skipped == states[n].skipped
  {
    RunKeepsInv(up, startTs, states, steps, n);
    var s, s', step := states[n], states[n + 1], steps[n];
    assert Next(up, s, step, s');
    var move := FinishMoves(up, startTs, s, step, s');
    var o, i := s.owner.value, step.input;
    AdvanceHeldBack(o.manager, o.sink, PullerResolved(o.puller), i, step.m1, step.k1);
  }

  /** The manager's resolved ts rises to the first job still queued, or to the puller's resolved ts if none
      is; with redo on not beyond what redo has flushed; and it never falls. */
  lemma ResolvedTsFollowsPuller(up: seq<Job>, startTs: nat, states: seq<System>, steps: seq<Step>, n: nat)
    requires Run(up, startTs, states, steps) && n < |steps| && steps[n].Finish? && states[n].owner.Some?
    requires states[n + 1].owner.Some?
    ensures var o, i, ts' := states[n].owner.value, steps[n].input, states[n + 1].owner.value.manager.ddlResolvedTs;
            var limit := if o.puller.jobs == [] then o.puller.resolvedTs else o.puller.jobs[0].finishedTs;
            && ts' >= o.manager.ddlResolvedTs && (ts' == o.manager.ddlResolvedTs || ts' <= limit)
            && (i.redoOn ==> ts' == o.manager.ddlResolvedTs || ts' <= i.redoDdlTs)
            && (ts' >= limit || (i.redoOn && ts' >= i.redoDdlTs))
  {
    assert Next(up, states[n], steps[n], states[n + 1]);
    var o, step := states[n].owner.value, steps[n];
    var r := AfterResolved(o.manager, PullerResolved(o.puller), step.input);
    var next :| AdvanceWith(r, AfterGetNext(r), o.sink, next, step.input, step.m1, step.k1, step.out);
  }

  /** A resolved ts that the puller receives is not lost. */
  lemma PullerCatchesUp(up: seq<Job>, startTs: nat, states: seq<System>, steps: seq<Step>, n: nat)
    requires Run(up, startTs, states, steps) && n < |steps| && steps[n].PullResolved?
    ensures states[n].owner.Some? && states[n + 1].owner.Some?
    ensures states[n + 1].owner.value.puller.resolvedTs >= steps[n].ts
    ensures states[n + 1].owner.value.puller.resolvedTs >= states[n].owner.value.puller.resolvedTs
  {
    assert Next(up, states[n], steps[n], states[n + 1]);
  }

  /** A drained job puts every event of it into the pending lists but the creations of ineligible tables. */
  lemma DrainedEventsArePending(up: seq<Job>, startTs: nat, states: seq<System>, steps: seq<Step>, n: nat, e: DdlEvent)
    requires Run(up, startTs, states, steps) && n < |steps| && steps[n].DrainOne?
    ensures states[n].owner.Some? && states[n + 1].owner.Some? && states[n].owner.value.puller.jobs != []
    ensures var o, o' := states[n].owner.value, states[n + 1].owner.value;
            IsPending(o'.manager.pending, e) <==>
            || IsPending(o.manager.pending, e)
            || (e in o.puller.jobs[0].events && !(e.ineligible && e.action in {CreateTable, CreateTables}))
  {
    RunKeepsInv(up, startTs, states, steps, n);
    assert Next(up, states[n], steps[n], states[n + 1]);
    var o := states[n].owner.value;
    assert o.puller.jobs[0] == up[Popped(o)];
    DrainKeepsPending(up, Popped(o), o.manager, states[n + 1].owner.value.manager);
  }

  /** The barrier of a tick, lowered by the changefeed's own barriers, holds the tables of every head and of
      the event that the tick has just cleared or skipped. */
  lemma TickHoldsItsTables(up: seq<Job>, startTs: nat, states: seq<System>, steps: seq<Step>, n: nat, d: DdlEvent)
    requires Run(up, startTs, states, steps) && n < |steps| && steps[n].Finish? && states[n].owner.Some?
    requires states[n + 1].owner.Some?
    requires || IsHead(states[n + 1].owner.value.manager.pending, d)
             || (IsPending(states[n].owner.value.manager.pending, d)
                 && !IsPending(states[n + 1].owner.value.manager.pending, d))
    ensures var b := LowerBarrier(steps[n].b, steps[n].otherTs);
            && (d.action !in OWN_TABLES ==> forall id: TableId :: Effective(b, id) <= d.commitTs)
            && Effective(b, Touched(d).id) <= d.commitTs
            && forall p <- Touched(d).partitions :: Effective(b, p) <= d.commitTs
  {
    RunKeepsInv(up, startTs, states, steps, n);
    assert Next(up, states[n], steps[n], states[n + 1]);
    var step := steps[n];
    TickConsiders(up, startTs, states[n], step, states[n + 1], d);
    NextDdlHoldsItsTables(step.m1.ddlResolvedTs, step.ddls, step.input.redoOn, step.b, d);
    forall id: TableId
      ensures Effective(LowerBarrier(step.b, step.otherTs), id) <= Effective(step.b, id)
    {
      LoweredBarrierHolds(step.b, step.otherTs, id);
    }
  }

  lemma TickConsiders(up: seq<Job>, startTs: nat, s: System, step: Step, s': System, d: DdlEvent)
    requires UpstreamOk(up) && Inv(up, startTs, s) && s.owner.Some? && s'.owner.Some? && step.Finish? && Next(up, s, step, s')
    requires || IsHead(s'.owner.value.manager.pending, d)
             || (IsPending(s.owner.value.manager.pending, d) && !IsPending(s'.owner.value.manager.pending, d))
    ensures d in step.ddls && BarrierOf(step.m1.ddlResolvedTs, step.ddls, step.input.redoOn, step.b)
  {
    var o := s.owner.value;
    var move := FinishMoves(up, startTs, s, step, s');
    FinishIs(up, s, step, s');
    MoveKeepsPending(up, Popped(o), o.manager, o.sink, step.input, step.m1, step.k1, move);
  }

  /** What a tick asks to be saved: nothing while every table is held below the checkpoint or the scheduler
      cannot proceed; else the scheduler's checkpoint, and a minimum that follows the lowered barrier
      but never falls.  Saving makes it durable. */
  lemma StatusFollowsTicks(up: seq<Job>, startTs: nat, states: seq<System>, steps: seq<Step>, n: nat)
    requires Run(up, startTs, states, steps) && n < |steps| && states[n].owner.Some? && states[n + 1].owner.Some?
    ensures steps[n].Finish? ==>
              var st, step, phase := states[n].status, steps[n], states[n + 1].owner.value.phase;
              var min := if step.otherTs < step.b.minTableTs then step.otherTs else step.b.minTableTs;
              && states[n + 1].status == st
              && if step.sched.None? || step.b.globalTs < st.checkpointTs || step.otherTs < st.checkpointTs
                 then phase == Idle
                 else
                   && phase == Saving(Status(step.sched.value, Max(min, st.minTableBarrierTs)))
                   && st.checkpointTs <= step.sched.value <= min
    ensures steps[n].Save? ==>
              && states[n].owner.value.phase.Saving? && states[n + 1].status == states[n].owner.value.phase.status
              && states[n + 1].owner.value.phase == Idle
  {
    assert Next(up, states[n], steps[n], states[n + 1]);
  }

  /** A restart pulls a finished event again only if the saved checkpoint stands at the saved minimum
      barrier, and then only events at that checkpoint. */
  lemma RestartRepeatsOnlyAtBarrier(up: seq<Job>, startTs: nat, states: seq<System>, steps: seq<Step>, n: nat, e: DdlEvent)
    requires Run(up, startTs, states, steps) && n < |steps| && steps[n].Start? && states[n + 1].owner.Some?
    requires Finished(states[n], e) && Within(up, states[n + 1].owner.value.pulled, |up|, e)
    ensures states[n].status.checkpointTs == states[n].status.minTableBarrierTs == e.commitTs
  {
    RunKeepsInv(up, startTs, states, steps, n);
    assert Next(up, states[n], steps[n], states[n + 1]);
    var i :| states[n + 1].owner.value.pulled <= i < |up| && e in up[i].events;
  }
}
