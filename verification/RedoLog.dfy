/** The redo log manager: one write loop, one flush goroutine at a time, and tables that come and go,
    interleaved at the grain of single atomic accesses.

    A `statefulRts` is reached through a pointer, and a goroutine may still hold the pointer after the
    table was removed and added again; `objs` holds every such object that ever existed. */
module RedoLog {
  import opened Prelude

  type Span = nat

  /** What emitters put into the log buffer: a batch of events of a span, or its resolved ts. */
  datatype Msg = Events(span: Span) | Resolved(span: Span, ts: nat)

  datatype Rts = Rts(span: Span, flushed: nat, unflushed: nat)

  /** The write loop between loading a pointer and updating through it. */
  datatype Bump = Bump(obj: nat, ts: nat)

  /** `prepareForFlush` visiting one table. */
  datatype Reading = NoTable | Loaded(obj: nat) | HasUnflushed(obj: nat, unflushed: nat)

  datatype Flush =
    | NotFlushing
    | Preparing(snap: map<Span, nat>, reading: Reading)
    | Flushing(snap: map<Span, nat>)
    | Syncing(snap: map<Span, nat>, upTo: set<nat>)
    | Posting(snap: map<Span, nat>, post: Option<Bump>)

  /** `queue` holds every message ever buffered, `handled` how many the write loop has taken;
      `written` and `durable` are the positions of the written and of the durable event batches;
      `given` the values passed to AddTable and StartTable, `reports` what GetResolvedTs answered. */
  datatype State = State(queue: seq<Msg>, handled: nat, bump: Option<Bump>, written: set<nat>, durable: set<nat>,
                         objs: seq<Rts>, rtsMap: map<Span, nat>, flush: Flush,
                         given: set<(Span, nat)>, reports: seq<(Span, nat)>)

  const INIT := State([], 0, None, {}, {}, [], map[], NotFlushing, {}, [])

  /** `util.CompareAndIncrease` leaves the larger value, whatever it races with. */
  function CompareAndIncrease(current: nat, ts: nat): nat {
    if ts < current then current else ts
  }

  function SetUnflushed(objs: seq<Rts>, i: nat, ts: nat): seq<Rts>
    requires i < |objs|
  {
    objs[i := objs[i].(unflushed := CompareAndIncrease(objs[i].unflushed, ts))]
  }

  function SetFlushed(objs: seq<Rts>, i: nat, ts: nat): seq<Rts>
    requires i < |objs|
  {
    objs[i := objs[i].(flushed := CompareAndIncrease(objs[i].flushed, ts))]
  }

  datatype Step =
    | Emit(msg: Msg)
    | AddTable(span: Span, ts: nat) | RemoveTable(span: Span)
    // StartTable(span, ts) raises first unflushed, then flushed, each through its own load.
    | StartTable(span: Span, ts: nat) | StartUnflushed(obj: nat, ts: nat) | StartFlushed(obj: nat, ts: nat)
    | HandleMsg | BumpUnflushed
    | FlushStart | PrepareLoad(span: Span) | PrepareUnflushed | PrepareFlushed | PrepareDone
    | FlushLog | FlushLogDone | FlushFail | PostLoad(span: Span) | PostSet | PostDone
    | Report(span: Span)

  ghost predicate Next(s: State, step: Step, s': State) {
    match step
    case Emit(msg) => s' == s.(queue := s.queue + [msg])
    case AddTable(span, ts) =>
      s' == if span in s.rtsMap then s.(given := s.given + {(span, ts)})
            else s.(objs := s.objs + [Rts(span, ts, ts)], rtsMap := s.rtsMap[span := |s.objs|],
                    given := s.given + {(span, ts)})
    case RemoveTable(span) => s' == s.(rtsMap := s.rtsMap - {span})
    case StartTable(span, ts) => s' == s.(given := s.given + {(span, ts)})
    case StartUnflushed(obj, ts) =>
      && obj < |s.objs| && (s.objs[obj].span, ts) in s.given
      && s' == s.(objs := SetUnflushed(s.objs, obj, ts))
    case StartFlushed(obj, ts) =>
      && obj < |s.objs| && (s.objs[obj].span, ts) in s.given
      && s' == s.(objs := SetFlushed(s.objs, obj, ts))
    case HandleMsg =>
      && s.bump.None? && s.handled < |s.queue|
      && (match s.queue[s.handled]
          case Events(_) => s' == s.(written := s.written + {s.handled}, handled := s.handled + 1)
          case Resolved(span, ts) =>
            s' == s.(handled := s.handled + 1,
                     bump := if span in s.rtsMap then Some(Bump(s.rtsMap[span], ts)) else None))
    case BumpUnflushed =>
      && s.bump.Some? && s.bump.value.obj < |s.objs|
      && s' == s.(objs := SetUnflushed(s.objs, s.bump.value.obj, s.bump.value.ts), bump := None)
    case FlushStart => s.flush.NotFlushing? && s' == s.(flush := Preparing(map[], NoTable))
    case PrepareLoad(span) =>
      && s.flush.Preparing? && s.flush.reading.NoTable? && span in s.rtsMap
      && s' == s.(flush := s.flush.(reading := Loaded(s.rtsMap[span])))
    case PrepareUnflushed =>
      && s.flush.Preparing? && s.flush.reading.Loaded? && s.flush.reading.obj < |s.objs|
      && s' == s.(flush := s.flush.(reading := HasUnflushed(s.flush.reading.obj, s.objs[s.flush.reading.obj].unflushed)))
    case PrepareFlushed =>
      && s.flush.Preparing? && s.flush.reading.HasUnflushed? && s.flush.reading.obj < |s.objs|
      && var o := s.objs[s.flush.reading.obj];
         var ts := if s.flush.reading.unflushed > o.flushed then s.flush.reading.unflushed else o.flushed;
         s' == s.(flush := Preparing(s.flush.snap[o.span := ts], NoTable))
    case PrepareDone =>
      && s.flush.Preparing? && s.flush.reading.NoTable?
      && s' == s.(flush := Flushing(s.flush.snap))
    // The writer makes durable what was written when FlushLog was called; later writes may miss it.
    case FlushLog => s.flush.Flushing? && s' == s.(flush := Syncing(s.flush.snap, s.written))
    case FlushLogDone =>
      s.flush.Syncing? && s' == s.(durable := s.durable + s.flush.upTo, flush := Posting(s.flush.snap, None))
    case FlushFail => s.flush.Syncing? && s' == s.(flush := NotFlushing)
    case PostLoad(span) =>
      && s.flush.Posting? && s.flush.post.None? && span in s.flush.snap && span in s.rtsMap
      && s' == s.(flush := s.flush.(post := Some(Bump(s.rtsMap[span], s.flush.snap[span]))))
    case PostSet =>
      && s.flush.Posting? && s.flush.post.Some? && s.flush.post.value.obj < |s.objs|
      && s' == s.(objs := SetFlushed(s.objs, s.flush.post.value.obj, s.flush.post.value.ts),
                  flush := s.flush.(post := None))
    case PostDone => s.flush.Posting? && s.flush.post.None? && s' == s.(flush := NotFlushing)
    case Report(span) =>
      && span in s.rtsMap && s.rtsMap[span] < |s.objs|
      && s' == s.(reports := s.reports + [(span, s.objs[s.rtsMap[span]].flushed)])
  }

  // ---------------------------------------------------------------------------------------------
  // Where a timestamp comes from
  // ---------------------------------------------------------------------------------------------

  /** Every batch of the span buffered before position `i` is in `stored`. */
  predicate AheadStored(queue: seq<Msg>, stored: set<nat>, span: Span, i: nat) {
    forall j | 0 <= j < i && j < |queue| :: queue[j] == Events(span) ==> j in stored
  }

  /** `ts` was given for the span, or resolved by a message whose preceding events are all stored. */
  ghost predicate Justified(queue: seq<Msg>, given: set<(Span, nat)>, stored: set<nat>, span: Span, ts: nat) {
    || (span, ts) in given
    || exists i | 0 <= i < |queue| :: queue[i] == Resolved(span, ts) && AheadStored(queue, stored, span, i)
  }

  ghost predicate Written(s: State, span: Span, ts: nat) {
    Justified(s.queue, s.given, s.written, span, ts)
  }

  ghost predicate Durable(s: State, span: Span, ts: nat) {
    Justified(s.queue, s.given, s.durable, span, ts)
  }

  /** Nothing that justifies a timestamp is ever taken back. */
  lemma JustifiedStays(q: seq<Msg>, g: set<(Span, nat)>, st: set<nat>, q': seq<Msg>, g': set<(Span, nat)>, st': set<nat>)
    requires q <= q' && g <= g' && st <= st'
    ensures forall span, ts :: Justified(q, g, st, span, ts) ==> Justified(q', g', st', span, ts)
  {
    forall span: Span, ts: nat | Justified(q, g, st, span, ts)
      ensures Justified(q', g', st', span, ts)
    {
      if (span, ts) !in g {
        var i :| 0 <= i < |q| && q[i] == Resolved(span, ts) && AheadStored(q, st, span, i);
        assert q'[i] == Resolved(span, ts) && AheadStored(q', st', span, i);
      }
    }
  }

  ghost predicate SnapOk(s: State, snap: map<Span, nat>, stored: set<nat>) {
    forall span <- snap :: Justified(s.queue, s.given, stored, span, snap[span])
  }

  ghost predicate FlushOk(s: State) {
    match s.flush
    case NotFlushing => true
    case Preparing(snap, reading) =>
      && SnapOk(s, snap, s.written)
      && (reading.Loaded? ==> reading.obj < |s.objs|)
      && (reading.HasUnflushed? ==> reading.obj < |s.objs| && Written(s, s.objs[reading.obj].span, reading.unflushed))
    case Flushing(snap) => SnapOk(s, snap, s.written)
    case Syncing(snap, upTo) => SnapOk(s, snap, upTo) && upTo <= s.written
    case Posting(snap, post) =>
      && SnapOk(s, snap, s.durable)
      && (post.Some? ==> post.value.obj < |s.objs| && Durable(s, s.objs[post.value.obj].span, post.value.ts))
  }

  ghost predicate ObjsOk(s: State) {
    forall i | 0 <= i < |s.objs| ::
      Written(s, s.objs[i].span, s.objs[i].unflushed) && Durable(s, s.objs[i].span, s.objs[i].flushed)
  }

  ghost predicate LogOk(s: State) {
    && s.handled <= |s.queue| && s.durable <= s.written
    && (forall j | 0 <= j < s.handled :: s.queue[j].Events? ==> j in s.written)
  }

  ghost predicate MapOk(s: State) {
    forall span <- s.rtsMap :: s.rtsMap[span] < |s.objs| && s.objs[s.rtsMap[span]].span == span
  }

  ghost predicate BumpOk(s: State) {
    s.bump.Some? ==> s.bump.value.obj < |s.objs| && Written(s, s.objs[s.bump.value.obj].span, s.bump.value.ts)
  }

  ghost predicate ReportsOk(s: State) {
    forall r <- s.reports :: Durable(s, r.0, r.1)
  }

  ghost predicate Inv(s: State) {
    LogOk(s) && MapOk(s) && BumpOk(s) && ObjsOk(s) && FlushOk(s) && ReportsOk(s)
  }

  /** A step only adds to what justifies timestamps. */
  lemma StepOnlyAdds(s: State, step: Step, s': State)
    requires Next(s, step, s')
    ensures s.queue <= s'.queue && s.given <= s'.given && s.written <= s'.written && s.durable <= s'.durable
    ensures forall span, ts :: Written(s, span, ts) ==> Written(s', span, ts)
    ensures forall span, ts :: Durable(s, span, ts) ==> Durable(s', span, ts)
    ensures |s.objs| <= |s'.objs|
    ensures forall i | 0 <= i < |s.objs| :: s'.objs[i].span == s.objs[i].span && s.objs[i].flushed <= s'.objs[i].flushed
  {
    JustifiedStays(s.queue, s.given, s.written, s'.queue, s'.given, s'.written);
    JustifiedStays(s.queue, s.given, s.durable, s'.queue, s'.given, s'.durable);
  }

  /** What is durable is written. */
  lemma DurableIsWritten(s: State)
    requires LogOk(s)
    ensures forall span, ts :: Durable(s, span, ts) ==> Written(s, span, ts)
  {
    JustifiedStays(s.queue, s.given, s.durable, s.queue, s.given, s.written);
  }

  /** A resolved message taken by the write loop finds everything before it written. */
  lemma HandledIsWritten(s: State)
    requires LogOk(s) && s.handled < |s.queue| && s.queue[s.handled].Resolved?
    ensures Written(s, s.queue[s.handled].span, s.queue[s.handled].ts)
  {
    assert AheadStored(s.queue, s.written, s.queue[s.handled].span, s.handled);
  }

  /** What a completed FlushLog covers is durable. */
  lemma FlushLogMakesDurable(s: State, s': State)
    requires Next(s, FlushLogDone, s')
    ensures forall span, ts :: Justified(s.queue, s.given, s.flush.upTo, span, ts) ==> Durable(s', span, ts)
  {
    JustifiedStays(s.queue, s.given, s.flush.upTo, s'.queue, s'.given, s'.durable);
  }

  lemma StepKeepsLog(s: State, step: Step, s': State)
    requires Inv(s) && Next(s, step, s')
    ensures LogOk(s') && MapOk(s') && ReportsOk(s')
  {
    StepOnlyAdds(s, step, s');
  }

  lemma StepKeepsBump(s: State, step: Step, s': State)
    requires Inv(s) && Next(s, step, s')
    ensures BumpOk(s')
  {
    StepOnlyAdds(s, step, s');
    if step.HandleMsg? && s.queue[s.handled].Resolved? {
      HandledIsWritten(s);
    }
  }

  lemma StepKeepsObjs(s: State, step: Step, s': State)
    requires Inv(s) && Next(s, step, s')
    ensures ObjsOk(s')
  {
    StepOnlyAdds(s, step, s');
    forall i | 0 <= i < |s'.objs|
      ensures Written(s', s'.objs[i].span, s'.objs[i].unflushed) && Durable(s', s'.objs[i].span, s'.objs[i].flushed)
    {
    }
  }

  /** The other goroutines leave what the flush goroutine holds justified. */
  lemma OthersKeepFlush(s: State, step: Step, s': State)
    requires Inv(s) && Next(s, step, s') && s'.flush == s.flush
    ensures FlushOk(s')
  {
    StepOnlyAdds(s, step, s');
    if s.flush.Syncing? {
      JustifiedStays(s.queue, s.given, s.flush.upTo, s'.queue, s'.given, s.flush.upTo);
    }
  }

  lemma StepKeepsFlush(s: State, step: Step, s': State)
    requires Inv(s) && Next(s, step, s')
    ensures FlushOk(s')
  {
    if s'.flush == s.flush {
      OthersKeepFlush(s, step, s');
    } else if step.FlushLogDone? {
      FlushLogMakesDurable(s, s');
    } else if step.PrepareFlushed? {
      DurableIsWritten(s);
    }
  }

  lemma StepKeepsInv(s: State, step: Step, s': State)
    requires Inv(s) && Next(s, step, s')
    ensures Inv(s')
  {
    StepKeepsLog(s, step, s');
    StepKeepsBump(s, step, s');
    StepKeepsObjs(s, step, s');
    StepKeepsFlush(s, step, s');
  }

  // ---------------------------------------------------------------------------------------------
  // Whole runs
  // ---------------------------------------------------------------------------------------------

  ghost predicate Run(states: seq<State>, steps: seq<Step>) {
    && |states| == |steps| + 1 && states[0] == INIT
    && forall i | 0 <= i < |steps| :: Next(states[i], steps[i], states[i + 1])
  }

  lemma {:induction false} RunKeepsInv(states: seq<State>, steps: seq<Step>, n: nat)
    requires Run(states, steps) && n <= |steps|
    ensures Inv(states[n])
    decreases n
  {
    if n > 0 {
      RunKeepsInv(states, steps, n - 1);
      StepKeepsInv(states[n - 1], steps[n - 1], states[n]);
    }
  }

  /** Over any interleaving of emitters, write loop, flush goroutine and table changes, a redo ts
      reported for a span is a value given to AddTable or StartTable, or that of an UpdateResolvedTs
      message for the span with every event of the span buffered ahead of it already durable. */
  lemma ReportedTsIsDurable(states: seq<State>, steps: seq<Step>, n: nat, span: Span, ts: nat)
    requires Run(states, steps) && n <= |steps| && (span, ts) in states[n].reports
    ensures || (span, ts) in states[n].given
            || exists i | 0 <= i < |states[n].queue| ::
                 && states[n].queue[i] == Resolved(span, ts)
                 && AheadStored(states[n].queue, states[n].durable, span, i)
  {
    RunKeepsInv(states, steps, n);
    assert Durable(states[n], span, ts);
  }

  lemma {:induction false} FlushedGrows(states: seq<State>, steps: seq<Step>, m: nat, n: nat, i: nat)
    requires Run(states, steps) && m <= n <= |steps| && i < |states[m].objs|
    ensures i < |states[n].objs| && states[m].objs[i].flushed <= states[n].objs[i].flushed
    decreases n
  {
    if m < n {
      FlushedGrows(states, steps, m, n - 1, i);
      RunKeepsInv(states, steps, n - 1);
      StepOnlyAdds(states[n - 1], steps[n - 1], states[n]);
    }
  }

  /** As long as a table keeps its entry, the redo ts reported for it never falls back. */
  lemma ReportedTsNeverRegresses(states: seq<State>, steps: seq<Step>, m: nat, n: nat, span: Span)
    requires Run(states, steps) && m <= n < |steps| && steps[m] == Report(span) && steps[n] == Report(span)
    requires span in states[m].rtsMap && span in states[n].rtsMap && states[m].rtsMap[span] == states[n].rtsMap[span]
    ensures |states[m + 1].reports| > 0 && |states[n + 1].reports| > 0
    ensures states[m + 1].reports[|states[m + 1].reports| - 1].1 <= states[n + 1].reports[|states[n + 1].reports| - 1].1
  {
    assert Next(states[m], steps[m], states[m + 1]);
    assert Next(states[n], steps[n], states[n + 1]);
    FlushedGrows(states, steps, m, n, states[m].rtsMap[span]);
  }

  // ---------------------------------------------------------------------------------------------
  // What is flushed catches up
  // ---------------------------------------------------------------------------------------------

  predicate InSnap(snap: map<Span, nat>, span: Span, u: nat) {
    span in snap && snap[span] >= u
  }

  /** What the preparation has at hand of the span: only the table's own entry, with at least `u`. */
  predicate ReadingOk(objs: seq<Rts>, reading: Reading, span: Span, obj: nat, u: nat) {
    !reading.NoTable? && reading.obj < |objs| && objs[reading.obj].span == span ==>
      reading.obj == obj && (reading.HasUnflushed? ==> reading.unflushed >= u)
  }

  /** The flush under way, if any, carries at least `u` for the entry `obj` of the span. */
  predicate Carries(s: State, span: Span, obj: nat, u: nat) {
    && obj < |s.objs| && s.objs[obj].span == span && s.objs[obj].unflushed >= u
    && match s.flush
       case NotFlushing => true
       case Preparing(snap, reading) =>
         && ReadingOk(s.objs, reading, span, obj, u)
         && (InSnap(snap, span, u) || (reading.HasUnflushed? && reading.obj == obj))
       case Flushing(snap) => InSnap(snap, span, u)
       case Syncing(snap, _) => InSnap(snap, span, u)
       case Posting(snap, post) =>
         InSnap(snap, span, u) && (post.Some? && post.value.obj == obj ==> post.value.ts >= u)
  }

  lemma OthersCarry(s: State, step: Step, s': State, span: Span, obj: nat, u: nat)
    requires Inv(s) && Next(s, step, s') && s'.flush == s.flush && Carries(s, span, obj, u)
    ensures Carries(s', span, obj, u)
  {
  }

  lemma StepCarries(s: State, step: Step, s': State, span: Span, obj: nat, u: nat)
    requires Inv(s) && Next(s, step, s') && !step.FlushStart? && Carries(s, span, obj, u)
    requires span in s.rtsMap && s.rtsMap[span] == obj
    ensures Carries(s', span, obj, u)
  {
    if s'.flush == s.flush {
      OthersCarry(s, step, s', span, obj, u);
    }
  }

  /** The table has this entry, and the step starts no flush. */
  predicate KeepsEntry(s: State, step: Step, span: Span, obj: nat) {
    span in s.rtsMap && s.rtsMap[span] == obj && !step.FlushStart?
  }

  lemma CarriesOnce(states: seq<State>, steps: seq<Step>, n: nat, span: Span, obj: nat, u: nat)
    requires Run(states, steps) && n < |steps| && Carries(states[n], span, obj, u)
    requires KeepsEntry(states[n], steps[n], span, obj)
    ensures Carries(states[n + 1], span, obj, u)
  {
    RunKeepsInv(states, steps, n);
    StepCarries(states[n], steps[n], states[n + 1], span, obj, u);
  }

  lemma {:induction false} FlushCarries(states: seq<State>, steps: seq<Step>, m: nat, n: nat, span: Span, obj: nat, u: nat)
    requires Run(states, steps) && m <= n <= |steps| && Carries(states[m], span, obj, u)
    requires forall i | m <= i < n :: KeepsEntry(states[i], steps[i], span, obj)
    ensures Carries(states[n], span, obj, u)
    decreases n
  {
    if m < n {
      FlushCarries(states, steps, m, n - 1, span, obj, u);
      CarriesOnce(states, steps, n - 1, span, obj, u);
    }
  }

  /** While a table keeps its entry, a flush that has read the entry's unflushed ts and comes to post it leaves
      a flushed ts of at least that. */
  lemma FlushReachesUnflushed(states: seq<State>, steps: seq<Step>, m: nat, n: nat, span: Span, obj: nat)
    requires Run(states, steps) && m < n < |steps| && steps[m].PrepareUnflushed? && steps[n].PostSet?
    requires forall i | m <= i < n :: KeepsEntry(states[i], steps[i], span, obj)
    requires states[m].flush.Preparing? && states[m].flush.reading == Loaded(obj)
    requires states[n].flush.Posting? && states[n].flush.post.Some? && states[n].flush.post.value.obj == obj
    ensures obj < |states[m].objs| && obj < |states[n + 1].objs|
    ensures states[m].objs[obj].unflushed <= states[n + 1].objs[obj].flushed
  {
    RunKeepsInv(states, steps, m);
    assert Next(states[m], steps[m], states[m + 1]);
    var u := states[m].objs[obj].unflushed;
    assert Carries(states[m + 1], span, obj, u);
    FlushCarries(states, steps, m + 1, n, span, obj, u);
    assert Next(states[n], steps[n], states[n + 1]);
  }

  /** The write loop takes every message in turn: events are written, and a resolved ts of a known table
      becomes its unflushed ts unless that is larger. */
  lemma MessagesAreTaken(states: seq<State>, steps: seq<Step>, n: nat)
    requires Run(states, steps) && n < |steps|
    ensures steps[n].HandleMsg? ==>
              var s, s' := states[n], states[n + 1];
              && s.handled < |s.queue| && s'.handled == s.handled + 1
              && match s.queue[s.handled]
                 case Events(_) => s'.written == s.written + {s.handled} && s'.bump.None?
                 case Resolved(span, ts) =>
                   s'.bump == if span in s.rtsMap then Some(Bump(s.rtsMap[span], ts)) else None
    ensures steps[n].BumpUnflushed? ==>
              && states[n].bump.Some? && states[n].bump.value.obj < |states[n + 1].objs|
              && states[n + 1].objs[states[n].bump.value.obj].unflushed >= states[n].bump.value.ts
  {
    assert Next(states[n], steps[n], states[n + 1]);
  }

  /** A flush visits a table through its entry, reads that entry's unflushed ts, and posts what it has for the
      table to the entry the table has then. */
  lemma FlushVisitsTables(states: seq<State>, steps: seq<Step>, n: nat)
    requires Run(states, steps) && n < |steps|
    ensures steps[n].PrepareLoad? ==>
              && steps[n].span in states[n].rtsMap && states[n + 1].flush.Preparing?
              && states[n + 1].flush.reading == Loaded(states[n].rtsMap[steps[n].span])
    ensures steps[n].PrepareUnflushed? ==>
              && states[n].flush.Preparing? && states[n].flush.reading.Loaded? && states[n + 1].flush.Preparing?
              && states[n].flush.reading.obj < |states[n].objs|
              && states[n + 1].flush.reading ==
                 HasUnflushed(states[n].flush.reading.obj, states[n].objs[states[n].flush.reading.obj].unflushed)
    ensures steps[n].PostLoad? ==>
              && states[n].flush.Posting? && steps[n].span in states[n].flush.snap && steps[n].span in states[n].rtsMap
              && states[n + 1].flush ==
                 Posting(states[n].flush.snap, Some(Bump(states[n].rtsMap[steps[n].span], states[n].flush.snap[steps[n].span])))
  {
    assert Next(states[n], steps[n], states[n + 1]);
  }

  /** Adding a table that is not there makes an entry at its ts, removing it takes the entry away; starting
      it raises both timestamps; and what is reported is the flushed ts of the entry. */
  lemma TablesComeAndGo(states: seq<State>, steps: seq<Step>, n: nat)
    requires Run(states, steps) && n < |steps|
    ensures steps[n].AddTable? ==>
              var span, s, s' := steps[n].span, states[n], states[n + 1];
              && span in s'.rtsMap && s'.rtsMap[span] < |s'.objs|
              && if span in s.rtsMap then s'.rtsMap == s.rtsMap && s'.objs == s.objs
                 else s'.rtsMap[span] == |s.objs| && s'.objs[|s.objs|] == Rts(span, steps[n].ts, steps[n].ts)
    ensures steps[n].RemoveTable? ==> steps[n].span !in states[n + 1].rtsMap
    ensures steps[n].StartUnflushed? ==>
              steps[n].obj < |states[n + 1].objs| && states[n + 1].objs[steps[n].obj].unflushed >= steps[n].ts
    ensures steps[n].StartFlushed? ==>
              steps[n].obj < |states[n + 1].objs| && states[n + 1].objs[steps[n].obj].flushed >= steps[n].ts
    ensures steps[n].Report? ==>
              var span, s := steps[n].span, states[n];
              && span in s.rtsMap && s.rtsMap[span] < |s.objs|
              && states[n + 1].reports == s.reports + [(span, s.objs[s.rtsMap[span]].flushed)]
  {
    RunKeepsInv(states, steps, n);
    assert Next(states[n], steps[n], states[n + 1]);
  }
}
