/** The owner's DDL manager with its puller queue below and its sink queue beside it. */
module DdlManager {
  import opened DdlEvents
  import opened DdlBarrier
  import opened Prelude

  type Pending = map<TableName, seq<DdlEvent>>

  datatype Manager = Manager(pending: Pending, executing: Option<DdlEvent>, justSent: Option<DdlEvent>,
                             checkpointTs: nat, ddlResolvedTs: nat)

  /** The sink queue: the channel of capacity one, the events put into it and not yet seen done,
      and the `Done` flags set by the background writer. */
  datatype Sink = Sink(sent: map<DdlEvent, nat>, ch: seq<DdlEvent>, done: set<DdlEvent>)

  datatype Puller = Puller(resolvedTs: nat, jobs: seq<Job>, lastJobId: nat)

  // ---------------------------------------------------------------------------------------------
  // The DDL puller queue
  // ---------------------------------------------------------------------------------------------

  datatype PullerEntry = ResolvedEntry(ts: nat) | JobEntry(job: Job)

  function Receive(p: Puller, e: PullerEntry): Puller {
    match e
    case ResolvedEntry(ts) => if ts > p.resolvedTs then p.(resolvedTs := ts) else p
    case JobEntry(job) =>
      if job.id == p.lastJobId then p else p.(jobs := p.jobs + [job], lastJobId := job.id)
  }

  /** The first queued job holds the resolved ts back; an empty queue does not. */
  function PullerResolved(p: Puller): nat {
    if p.jobs == [] then p.resolvedTs else p.jobs[0].finishedTs
  }

  class DdlPuller {
    var resolvedTs: nat
    var jobs: seq<Job>
    var lastJobId: nat

    ghost function Value(): Puller
      reads this
    {
      Puller(resolvedTs, jobs, lastJobId)
    }

    constructor (startTs: nat)
      ensures Value() == Puller(startTs, [], 0)
    {
      resolvedTs, jobs, lastJobId := startTs, [], 0;
    }

    method ReceiveEntry(e: PullerEntry)
      modifies this
      ensures Value() == Receive(old(Value()), e)
    {
      match e
      case ResolvedEntry(ts) =>
        if ts > resolvedTs {
          resolvedTs := ts;
        }
      case JobEntry(job) =>
        if job.id == lastJobId {
          return;
        }
        jobs := jobs + [job];
        lastJobId := job.id;
    }

    method PopFrontDDL() returns (ts: nat, job: Option<Job>)
      modifies this
      ensures old(jobs) == [] ==> ts == resolvedTs && job == None && Value() == old(Value())
      ensures old(jobs) != [] ==>
                && job == Some(old(jobs)[0]) && ts == old(jobs)[0].finishedTs
                && Value() == old(Value()).(jobs := old(jobs)[1..])
    {
      if jobs == [] {
        return resolvedTs, None;
      }
      ts, job := jobs[0].finishedTs, Some(jobs[0]);
      jobs := jobs[1..];
    }

    method ResolvedTs() returns (ts: nat)
      ensures ts == PullerResolved(Value())
    {
      if jobs == [] {
        return resolvedTs;
      }
      return jobs[0].finishedTs;
    }
  }

  // ---------------------------------------------------------------------------------------------
  // The sink queue
  // ---------------------------------------------------------------------------------------------

  function SentTs(k: Sink, d: DdlEvent): nat {
    if d in k.sent then k.sent[d] else 0
  }

  function AfterEmit(k: Sink, d: DdlEvent): Sink {
    if d in k.done then k.(sent := k.sent - {d})
    else if d.commitTs <= SentTs(k, d) then k
    else if |k.ch| >= 1 then k
    else k.(ch := k.ch + [d], sent := k.sent[d := d.commitTs])
  }

  class DdlSink {
    var sent: map<DdlEvent, nat>
    var ch: seq<DdlEvent>
    var done: set<DdlEvent>

    ghost function Value(): Sink
      reads this
    {
      Sink(sent, ch, done)
    }

    constructor ()
      ensures Value() == Sink(map[], [], {})
    {
      sent, ch, done := map[], [], {};
    }

    /** Asks for `d` to be executed; answers whether it already has been. */
    method EmitDDLEvent(d: DdlEvent) returns (isDone: bool)
      modifies this
      ensures isDone <==> d in old(done)
      ensures Value() == AfterEmit(old(Value()), d)
    {
      if d in done {
        sent := sent - {d};
        return true;
      }
      var sentTs := if d in sent then sent[d] else 0;
      if d.commitTs <= sentTs {
        return false;
      }
      if |ch| < 1 {
        ch := ch + [d];
        sent := sent[d := d.commitTs];
      }
      return false;
    }
  }

  // ---------------------------------------------------------------------------------------------
  // The manager
  // ---------------------------------------------------------------------------------------------

  function EventsOf(p: Pending, name: TableName): seq<DdlEvent> {
    if name in p then p[name] else []
  }

  function AddEvents(p: Pending, events: seq<DdlEvent>): Pending {
    if events == [] then p
    else
      var p' := AddEvents(p, events[..|events| - 1]);
      var d := events[|events| - 1];
      if Dropped(d) then p' else p'[d.name := EventsOf(p', d.name) + [d]]
  }

  /** The kept events of one table. */
  function Named(events: seq<DdlEvent>, name: TableName): seq<DdlEvent> {
    if events == [] then []
    else
      var r, d := Named(events[..|events| - 1], name), events[|events| - 1];
      if d.name == name && !Dropped(d) then r + [d] else r
  }

  lemma {:induction false} NamedMembers(events: seq<DdlEvent>, name: TableName, d: DdlEvent)
    ensures d in Named(events, name) <==> d in events && d.name == name && !Dropped(d)
    decreases |events|
  {
    if events != [] {
      NamedMembers(events[..|events| - 1], name, d);
      assert events == events[..|events| - 1] + [events[|events| - 1]];
    }
  }

  lemma {:induction false} AddEventsAppends(p: Pending, events: seq<DdlEvent>, name: TableName)
    ensures EventsOf(AddEvents(p, events), name) == EventsOf(p, name) + Named(events, name)
    decreases |events|
  {
    if events != [] {
      AddEventsAppends(p, events[..|events| - 1], name);
    }
  }

  function DrainAll(p: Pending, jobs: seq<Job>): Pending {
    if jobs == [] then p else AddEvents(DrainAll(p, jobs[..|jobs| - 1]), jobs[|jobs| - 1].events)
  }

  /** Draining the queue keeps what was pending and adds every event of every job but the creations of
      ineligible tables. */
  lemma {:induction false} DrainAllHolds(p: Pending, jobs: seq<Job>, d: DdlEvent)
    ensures d in EventsOf(DrainAll(p, jobs), d.name) <==>
            || d in EventsOf(p, d.name)
            || exists i | 0 <= i < |jobs| :: d in jobs[i].events && !(d.ineligible && d.action in {CreateTable, CreateTables})
    decreases |jobs|
  {
    if jobs != [] {
      var init, job := jobs[..|jobs| - 1], jobs[|jobs| - 1];
      DrainAllHolds(p, init, d);
      AddEventsAppends(DrainAll(p, init), job.events, d.name);
      NamedMembers(job.events, d.name, d);
      assert forall i | 0 <= i < |init| :: init[i] == jobs[i];
    }
  }

  predicate IsHead(p: Pending, d: DdlEvent) {
    exists name <- p :: |p[name]| > 0 && p[name][0] == d
  }

  /** Every list holds events of its own table. */
  predicate NamedLists(p: Pending) {
    forall name <- p :: forall d <- p[name] :: d.name == name
  }

  /** The executing event is the head of its table's list. */
  predicate ExecutingIsHead(m: Manager) {
    m.executing.Some? ==>
      var d := m.executing.value; d.name in m.pending && |m.pending[d.name]| > 0 && m.pending[d.name][0] == d
  }

  predicate WellFormed(m: Manager) {
    NamedLists(m.pending) && ExecutingIsHead(m)
  }

  lemma AddEventsKeepsWellFormed(m: Manager, events: seq<DdlEvent>)
    requires WellFormed(m)
    ensures WellFormed(m.(pending := AddEvents(m.pending, events)))
  {
    var p := AddEvents(m.pending, events);
    forall name, d: DdlEvent | name in p && d in p[name]
      ensures d.name == name
    {
      AddEventsAppends(m.pending, events, name);
      NamedMembers(events, name, d);
    }
    if m.executing.Some? {
      AddEventsAppends(m.pending, events, m.executing.value.name);
    }
  }

  /** `getNextDDL` drops empty lists while it looks for the earliest head. */
  function DropEmpty(p: Pending): Pending {
    map name | name in p && p[name] != [] :: p[name]
  }

  function AfterGetNext(m: Manager): Manager {
    if m.executing.Some? then m else m.(pending := DropEmpty(m.pending))
  }

  /** The event to run next: the executing one, else a head with the least commit ts. */
  ghost predicate IsNext(m: Manager, next: Option<DdlEvent>) {
    if m.executing.Some? then next == m.executing
    else if next.None? then forall d :: !IsHead(m.pending, d)
    else IsHead(m.pending, next.value) && forall d :: IsHead(m.pending, d) ==> next.value.commitTs <= d.commitTs
  }

  /** What is outside the manager at one tick: redo flushing and the BDR switch. */
  datatype TickInput = TickInput(redoOn: bool, redoDdlTs: nat, redoCheckpointTs: nat, bdrMode: bool)

  function AfterResolved(m: Manager, ddlRts: nat, i: TickInput): Manager {
    var rts := if i.redoOn && i.redoDdlTs < ddlRts then i.redoDdlTs else ddlRts;
    if m.ddlResolvedTs <= rts then m.(ddlResolvedTs := rts) else m
  }

  predicate ShouldExec(m: Manager, d: DdlEvent, i: TickInput) {
    && m.checkpointTs == d.commitTs
    && (i.redoOn ==> i.redoCheckpointTs == d.commitTs && m.ddlResolvedTs >= d.commitTs)
  }

  function AfterClean(m: Manager): Manager
    requires m.executing.Some? && ExecutingIsHead(m)
  {
    var d := m.executing.value;
    m.(pending := m.pending[d.name := m.pending[d.name][1..]], justSent := Some(d), executing := None)
  }

  /** A skipped event is cleaned at once; any other one is offered to the sink and cleaned when done. */
  function AfterExec(m: Manager, k: Sink, d: DdlEvent, i: TickInput): (Manager, Sink)
    requires m.executing == None || m.executing == Some(d)
    requires ExecutingIsHead(m.(executing := Some(d)))
  {
    var m' := m.(executing := Some(d));
    if m.executing.None? && ShouldSkip(d, i.bdrMode) then (AfterClean(m'), k)
    else if d in k.done then (AfterClean(m'), AfterEmit(k, d))
    else (m', AfterEmit(k, d))
  }

  lemma NextIsHead(m: Manager, next: DdlEvent)
    requires WellFormed(m) && IsNext(m, Some(next))
    ensures ExecutingIsHead(m.(executing := Some(next)))
  {
    if m.executing.None? {
      var name :| name in m.pending && |m.pending[name]| > 0 && m.pending[name][0] == next;
      assert next in m.pending[name];
    }
  }

  datatype Outcome = Done | Panic | NotBootstrapped

  /** The middle of a tick, between reading the puller's resolved ts and computing the barrier. */
  ghost predicate Advance(m: Manager, k: Sink, ddlRts: nat, i: TickInput, m': Manager, k': Sink, out: Outcome)
    requires WellFormed(m)
  {
    var m1 := AfterResolved(m, ddlRts, i);
    var m2 := AfterGetNext(m1);
    exists next :: AdvanceWith(m1, m2, k, next, i, m', k', out)
  }

  ghost predicate AdvanceWith(m1: Manager, m2: Manager, k: Sink, next: Option<DdlEvent>, i: TickInput,
                              m': Manager, k': Sink, out: Outcome) {
    && IsNext(m1, next)
    && if next.None? then m' == m2 && k' == k && out == Done
       else if m2.checkpointTs > next.value.commitTs then m' == m2 && k' == k && out == Panic
       else if !ShouldExec(m2, next.value, i) then m' == m2 && k' == k && out == Done
       else
         && (m2.executing == None || m2.executing == next)
         && ExecutingIsHead(m2.(executing := next))
         && (m', k') == AfterExec(m2, k, next.value, i)
         && out == Done
  }

  /** The events the barrier looks at: every head, and the event cleaned in this tick. */
  ghost predicate Considered(m: Manager, ddls: seq<DdlEvent>) {
    forall d :: d in ddls <==> IsHead(m.pending, d) || m.justSent == Some(d)
  }

  /** A tick during which nothing arrives: before the bootstrap messages are out nothing happens; after,
      everything queued is drained, then the manager advances to `m1`, and the barrier is taken there. */
  ghost predicate TickResult(m: Manager, k: Sink, p: Puller, checkpointTs: nat, bootstrapped: bool, i: TickInput,
                             m1: Manager, ddls: seq<DdlEvent>, m': Manager, k': Sink, p': Puller, out: Outcome, b: Barrier) {
    if !bootstrapped then
      m' == m.(justSent := None, checkpointTs := checkpointTs) && k' == k && p' == p && out == NotBootstrapped
    else
      var m0 := m.(justSent := None, checkpointTs := checkpointTs, pending := DrainAll(m.pending, p.jobs));
      && p' == p.(jobs := []) && WellFormed(m0)
      && Advance(m0, k, p.resolvedTs, i, m1, k', out)
      && if out.Panic? then m' == m1
         else m' == m1.(justSent := None) && Considered(m1, ddls) && BarrierOf(m1.ddlResolvedTs, ddls, i.redoOn, b)
  }

  class DdlManagerImpl {
    var pending: Pending
    var executing: Option<DdlEvent>
    var justSent: Option<DdlEvent>
    var checkpointTs: nat
    var ddlResolvedTs: nat
    const sink: DdlSink

    function Value(): Manager
      reads this
    {
      Manager(pending, executing, justSent, checkpointTs, ddlResolvedTs)
    }

    constructor (startTs: nat, checkpointTs: nat, sink: DdlSink)
      ensures Value() == Manager(map[], None, None, checkpointTs, startTs)
      ensures this.sink == sink
    {
      pending, executing, justSent := map[], None, None;
      this.checkpointTs, ddlResolvedTs, this.sink := checkpointTs, startTs, sink;
    }

    /** One job of the drain loop. */
    method HandleJob(job: Job)
      modifies this
      ensures Value() == old(Value()).(pending := AddEvents(old(pending), job.events))
    {
      for i := 0 to |job.events|
        invariant Value() == old(Value()).(pending := AddEvents(old(pending), job.events[..i]))
      {
        var d := job.events[i];
        assert job.events[..i + 1][..i] == job.events[..i];
        if !Dropped(d) {
          pending := pending[d.name := EventsOf(pending, d.name) + [d]];
        }
      }
      assert job.events[..|job.events|] == job.events;
    }

    method GetNextDDL() returns (next: Option<DdlEvent>)
      modifies this
      ensures IsNext(old(Value()), next)
      ensures Value() == AfterGetNext(old(Value()))
    {
      if executing.Some? {
        return executing;
      }
      next := None;
      var rest := pending.Keys;
      var all := pending;
      while rest != {}
        invariant rest <= all.Keys
        invariant Value() == old(Value()).(pending := map name | name in all && (name in rest || all[name] != []) :: all[name])
        invariant next.None? ==> forall name <- all :: name in rest || all[name] == []
        invariant next.Some? ==> IsHead(all, next.value)
        invariant next.Some? ==> forall name <- all :: name in rest || all[name] == [] || next.value.commitTs <= all[name][0].commitTs
      {
        var name :| name in rest;
        var ddls := all[name];
        if |ddls| == 0 {
          pending := pending - {name};
        } else if next.None? || next.value.commitTs > ddls[0].commitTs {
          next := Some(ddls[0]);
        }
        rest := rest - {name};
      }
      assert pending == DropEmpty(all);
    }

    method CleanCache()
      requires executing.Some? && ExecutingIsHead(Value())
      modifies this
      ensures Value() == AfterClean(old(Value()))
    {
      var name := executing.value.name;
      pending := pending[name := pending[name][1..]];
      justSent := executing;
      executing := None;
    }

    /** Starts or polls the execution of `d`. */
    method ExecuteDDL(d: DdlEvent, i: TickInput)
      requires executing == None || executing == Some(d)
      requires ExecutingIsHead(Value().(executing := Some(d)))
      modifies this, sink
      ensures (Value(), sink.Value()) == AfterExec(old(Value()), old(sink.Value()), d, i)
    {
      if executing.None? {
        executing := Some(d);
        if ShouldSkip(d, i.bdrMode) {
          CleanCache();
          return;
        }
      }
      var isDone := sink.EmitDDLEvent(d);
      if isDone {
        CleanCache();
      }
    }

    /** Everything a tick does after the drain loop and before the barrier. */
    method AdvanceAndExecute(ddlRts: nat, i: TickInput) returns (out: Outcome)
      requires WellFormed(Value())
      modifies this, sink
      ensures Advance(old(Value()), old(sink.Value()), ddlRts, i, Value(), sink.Value(), out)
    {
      var rts := ddlRts;
      if i.redoOn && i.redoDdlTs < rts {
        rts := i.redoDdlTs;
      }
      if ddlResolvedTs <= rts {
        ddlResolvedTs := rts;
      }
      ghost var m1 := Value();
      var next := GetNextDDL();
      ghost var m2 := Value();
      ghost var k := sink.Value();
      out := Done;
      if next.Some? {
        NextIsHead(m1, next.value);
        if checkpointTs > next.value.commitTs {
          out := Panic;
        } else if ShouldExec(Value(), next.value, i) {
          ExecuteDDL(next.value, i);
        }
      }
      assert AdvanceWith(m1, m2, k, next, i, Value(), sink.Value(), out);
    }

    method GetAllTableNextDDL() returns (res: seq<DdlEvent>)
      ensures forall d :: d in res <==> IsHead(pending, d)
    {
      res := [];
      var rest := pending.Keys;
      while rest != {}
        invariant rest <= pending.Keys
        invariant forall d <- res :: IsHead(pending, d)
        invariant forall name <- pending :: name in rest || pending[name] == [] || pending[name][0] in res
      {
        var name :| name in rest;
        if |pending[name]| > 0 {
          res := res + [pending[name][0]];
        }
        rest := rest - {name};
      }
    }

    /** A whole tick with nothing arriving meanwhile: drain the puller, advance, execute, compute
        the barrier. */
    method Tick(checkpointTs: nat, puller: DdlPuller, bootstrapped: bool, i: TickInput) returns (out: Outcome, b: Barrier)
      requires WellFormed(Value())
      modifies this, sink, puller
      ensures exists m1, ddls :: TickResult(old(Value()), old(sink.Value()), old(puller.Value()), checkpointTs, bootstrapped,
                                            i, m1, ddls, Value(), sink.Value(), puller.Value(), out, b)
    {
      justSent := None;
      this.checkpointTs := checkpointTs;
      if !bootstrapped {
        out, b := NotBootstrapped, Barrier(0, 0, 0, []);
        assert TickResult(old(Value()), old(sink.Value()), old(puller.Value()), checkpointTs, bootstrapped, i,
                          Value(), [], Value(), sink.Value(), puller.Value(), out, b);
        return;
      }
      ghost var all := puller.jobs;
      ghost var done := 0;
      assert all[..0] == [];
      while true
        invariant done <= |all| && puller.jobs == all[done..]
        invariant puller.Value() == old(puller.Value()).(jobs := all[done..])
        invariant Value() == old(Value()).(justSent := None, checkpointTs := checkpointTs,
                                           pending := DrainAll(old(pending), all[..done]))
        invariant WellFormed(Value()) && sink.Value() == old(sink.Value())
        decreases |puller.jobs|
      {
        var _, job := puller.PopFrontDDL();
        if job.None? {
          break;
        }
        AddEventsKeepsWellFormed(Value(), job.value.events);
        assert all[..done + 1][..done] == all[..done];
        HandleJob(job.value);
        done := done + 1;
      }
      assert all[..done] == all;
      var ddlRts := puller.ResolvedTs();
      out := AdvanceAndExecute(ddlRts, i);
      ghost var m1 := Value();
      if out.Panic? {
        b := Barrier(0, 0, 0, []);
        assert TickResult(old(Value()), old(sink.Value()), old(puller.Value()), checkpointTs, bootstrapped, i,
                          m1, [], Value(), sink.Value(), puller.Value(), out, b);
        return;
      }
      b := TakeBarrier(i.redoOn);
      ghost var ddls :| Considered(m1, ddls) && BarrierOf(m1.ddlResolvedTs, ddls, i.redoOn, b);
      assert TickResult(old(Value()), old(sink.Value()), old(puller.Value()), checkpointTs, bootstrapped, i,
                        m1, ddls, Value(), sink.Value(), puller.Value(), out, b);
    }

    method TakeBarrier(redoOn: bool) returns (b: Barrier)
      modifies this
      ensures exists ddls :: Considered(old(Value()), ddls) && BarrierOf(ddlResolvedTs, ddls, redoOn, b)
      ensures Value() == old(Value()).(justSent := None)
    {
      var ddls := GetAllTableNextDDL();
      if justSent.Some? {
        ddls := ddls + [justSent.value];
      }
      assert Considered(Value(), ddls);
      b := ComputeBarrier(ddlResolvedTs, ddls, redoOn);
      justSent := None;
    }
  }
}
