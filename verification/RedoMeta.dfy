/** The redo meta manager over any number of lives: every storage operation and every atomic access is
    a step, and a crash may follow any of them. The storage belongs to one changefeed. */
module RedoMeta {
  import opened Prelude

  type File = nat

  datatype Meta = Meta(ckpt: nat, resolved: nat)

  datatype LogKind = DdlLog | RowLog | UnknownLog

  /** A path in the storage, as `shouldRemoved` sees it. */
  datatype LogFile = LogFile(id: nat, own: bool, logExt: bool, parsed: Option<(nat, LogKind)>)

  /** Whether garbage collection up to `ckpt` takes the file. */
  predicate ShouldRemoved(l: LogFile, ckpt: nat) {
    && l.own && l.logExt && l.parsed.Some? && !l.parsed.value.1.UnknownLog?
    && l.parsed.value.0 < ckpt
  }

  function MaxCkpt(metas: seq<Meta>): (r: nat)
    ensures forall m <- metas :: m.ckpt <= r
    ensures r == 0 || exists m <- metas :: m.ckpt == r
  {
    if metas == [] then 0 else Max(MaxCkpt(metas[..|metas| - 1]), metas[|metas| - 1].ckpt)
  }

  function MaxResolved(metas: seq<Meta>): (r: nat)
    ensures forall m <- metas :: m.resolved <= r
    ensures r == 0 || exists m <- metas :: m.resolved == r
  {
    if metas == [] then 0 else Max(MaxResolved(metas[..|metas| - 1]), metas[|metas| - 1].resolved)
  }

  /** `common.ParseMeta`: the two maxima, taken independently. */
  method ParseMeta(metas: seq<Meta>) returns (ckpt: nat, resolved: nat)
    ensures ckpt == MaxCkpt(metas) && resolved == MaxResolved(metas)
  {
    ckpt, resolved := 0, 0;
    for i := 0 to |metas|
      invariant ckpt == MaxCkpt(metas[..i]) && resolved == MaxResolved(metas[..i])
    {
      if ckpt < metas[i].ckpt {
        ckpt := metas[i].ckpt;
      }
      if resolved < metas[i].resolved {
        resolved := metas[i].resolved;
      }
      assert metas[..i + 1][..i] == metas[..i];
    }
    assert metas[..|metas|] == metas;
  }

  // ---------------------------------------------------------------------------------------------
  // The machine
  // ---------------------------------------------------------------------------------------------

  /** A flush of the meta: read the checkpoint, read the resolved ts, write a fresh file, delete the
      previous one, then publish the resolved ts and the checkpoint. */
  datatype FlushPc =
    | Idle | GotCkpt(c: nat) | Writing(m: Meta) | Deleting(m: Meta, file: File) | PostResolved(m: Meta) | PostCkpt(m: Meta)

  /** Where `initMeta` is: its own flush not done, deleting the files it replaces, or over. */
  datatype InitPc = Flushing | Cleaning | Running

  datatype Manager =
    | Down
    | Walking(todo: set<File>, seen: set<File>, read: seq<Meta>)
    | Up(unflushed: Meta, flushed: Meta, pre: Option<File>, pc: FlushPc, init: InitPc, toRemove: set<File>,
         preCkpt: nat, gc: Option<nat>)

  /** `used` are the meta file names ever taken; `created` the log files ever seen in the storage;
      `reported` the values GetFlushedMeta has given, of either kind. */
  datatype State = State(metas: map<File, Meta>, used: set<File>, logs: set<LogFile>, created: set<LogFile>,
                         mgr: Manager, ckptReports: set<nat>, resolvedReports: set<nat>)

  const INIT := State(map[], {}, {}, {}, Down, {}, {})

  datatype Step =
    | Start(startTs: nat) | Walk(file: File) | WalkDone
    | UpdateResolved(ts: nat) | UpdateCkpt(ts: nat)
    | FlushCkpt | FlushResolved | WriteFile(file: File) | DeletePrevious | PublishResolved | PublishCkpt
    | CleanOne(file: File) | CleanDone
    | GcStart | GcRemove(log: LogFile) | GcDone
    | CreateLog(log: LogFile) | ReportCkpt | ReportResolved | Crash

  predicate HasChange(flushed: Meta, unflushed: Meta) {
    flushed.ckpt < unflushed.ckpt || flushed.resolved < unflushed.resolved
  }

  ghost predicate Next(s: State, step: Step, s': State) {
    match step
    case Start(startTs) =>
      s.mgr.Down? && s' == s.(mgr := Walking(s.metas.Keys, {}, [Meta(startTs, startTs)]))
    case Walk(file) =>
      && s.mgr.Walking? && file in s.mgr.todo
      && s' == s.(mgr := Walking(s.mgr.todo - {file}, s.mgr.seen + {file},
                                 if file in s.metas then s.mgr.read + [s.metas[file]] else s.mgr.read))
    case WalkDone =>
      && s.mgr.Walking? && s.mgr.todo == {}
      && var m := Meta(MaxCkpt(s.mgr.read), MaxResolved(s.mgr.read));
         s' == s.(mgr := if m.ckpt == 0 || m.resolved == 0 then Down
                         else Up(m, Meta(0, 0), None, Idle, Flushing, s.mgr.seen, 0, None))
    case UpdateResolved(ts) =>
      && s.mgr.Up? && s.mgr.init.Running?
      && s' == s.(mgr := s.mgr.(unflushed := s.mgr.unflushed.(resolved := Max(s.mgr.unflushed.resolved, ts))))
    case UpdateCkpt(ts) =>
      && s.mgr.Up? && s.mgr.init.Running?
      && s' == s.(mgr := s.mgr.(unflushed := s.mgr.unflushed.(ckpt := Max(s.mgr.unflushed.ckpt, ts))))
    case FlushCkpt =>
      && s.mgr.Up? && s.mgr.pc.Idle? && !s.mgr.init.Cleaning?
      && s' == s.(mgr := s.mgr.(pc := GotCkpt(s.mgr.unflushed.ckpt)))
    case FlushResolved =>
      && s.mgr.Up? && s.mgr.pc.GotCkpt?
      && var m := Meta(s.mgr.pc.c, s.mgr.unflushed.resolved);
         s' == s.(mgr := s.mgr.(pc := if HasChange(s.mgr.flushed, m) then Writing(m) else Idle))
    case WriteFile(file) =>
      && s.mgr.Up? && s.mgr.pc.Writing? && file !in s.used
      && s' == s.(metas := s.metas[file := s.mgr.pc.m], used := s.used + {file},
                  mgr := s.mgr.(pc := Deleting(s.mgr.pc.m, file)))
    case DeletePrevious =>
      && s.mgr.Up? && s.mgr.pc.Deleting?
      && s' == s.(metas := if s.mgr.pre.Some? then s.metas - {s.mgr.pre.value} else s.metas,
                  mgr := s.mgr.(pre := Some(s.mgr.pc.file), pc := PostResolved(s.mgr.pc.m)))
    case PublishResolved =>
      && s.mgr.Up? && s.mgr.pc.PostResolved?
      && s' == s.(mgr := s.mgr.(flushed := s.mgr.flushed.(resolved := Max(s.mgr.flushed.resolved, s.mgr.pc.m.resolved)),
                                pc := PostCkpt(s.mgr.pc.m)))
    case PublishCkpt =>
      && s.mgr.Up? && s.mgr.pc.PostCkpt?
      && s' == s.(mgr := s.mgr.(flushed := s.mgr.flushed.(ckpt := Max(s.mgr.flushed.ckpt, s.mgr.pc.m.ckpt)),
                                pc := Idle, init := if s.mgr.init.Flushing? then Cleaning else s.mgr.init))
    case CleanOne(file) =>
      && s.mgr.Up? && s.mgr.init.Cleaning? && file in s.mgr.toRemove
      && s' == s.(metas := s.metas - {file}, mgr := s.mgr.(toRemove := s.mgr.toRemove - {file}))
    case CleanDone =>
      s.mgr.Up? && s.mgr.init.Cleaning? && s.mgr.toRemove == {} && s' == s.(mgr := s.mgr.(init := Running))
    case GcStart =>
      && s.mgr.Up? && s.mgr.init.Running? && s.mgr.gc.None? && s.mgr.flushed.ckpt != s.mgr.preCkpt
      && s' == s.(mgr := s.mgr.(gc := Some(s.mgr.flushed.ckpt), preCkpt := s.mgr.flushed.ckpt))
    case GcRemove(l) =>
      && s.mgr.Up? && s.mgr.gc.Some? && l in s.logs && ShouldRemoved(l, s.mgr.gc.value)
      && s' == s.(logs := s.logs - {l})
    case GcDone => s.mgr.Up? && s.mgr.gc.Some? && s' == s.(mgr := s.mgr.(gc := None))
    case CreateLog(l) => l !in s.created && s' == s.(logs := s.logs + {l}, created := s.created + {l})
    case ReportCkpt => s.mgr.Up? && s' == s.(ckptReports := s.ckptReports + {s.mgr.flushed.ckpt})
    case ReportResolved => s.mgr.Up? && s' == s.(resolvedReports := s.resolvedReports + {s.mgr.flushed.resolved})
    case Crash => s' == s.(mgr := Down)
  }

  // ---------------------------------------------------------------------------------------------
  // What the surviving files guarantee
  // ---------------------------------------------------------------------------------------------

  /** Reading every meta file would give at least `v`. */
  predicate CoversCkpt(metas: map<File, Meta>, v: nat) {
    v == 0 || exists f <- metas :: metas[f].ckpt >= v
  }

  predicate CoversResolved(metas: map<File, Meta>, v: nat) {
    v == 0 || exists f <- metas :: metas[f].resolved >= v
  }

  predicate Leq(a: Meta, b: Meta) {
    a.ckpt <= b.ckpt && a.resolved <= b.resolved
  }

  predicate Bounded(metas: map<File, Meta>, m: Meta) {
    forall f <- metas :: Leq(metas[f], m)
  }

  /** `f` holds the largest values of all the meta files. */
  predicate Top(metas: map<File, Meta>, f: File) {
    f in metas && Bounded(metas, metas[f])
  }

  /** Nothing is lost as long as a top file stays. */
  lemma TopCovers(metas: map<File, Meta>, metas': map<File, Meta>, f: File)
    requires Top(metas, f) && f in metas' && metas'[f] == metas[f]
    ensures forall v :: CoversCkpt(metas, v) ==> CoversCkpt(metas', v)
    ensures forall v :: CoversResolved(metas, v) ==> CoversResolved(metas', v)
  {
  }

  /** The meta file of the last completed flush, if any, is on top and not below what is published. */
  predicate PreOk(metas: map<File, Meta>, m: Manager)
    requires m.Up?
  {
    && (m.init.Flushing? ==> m.pre.None? && m.flushed == Meta(0, 0))
    && (!m.init.Flushing? ==> m.pre.Some?)
    && (m.pre.Some? ==> Top(metas, m.pre.value) && Leq(m.flushed, metas[m.pre.value]) && m.pre.value !in m.toRemove)
  }

  predicate PcOk(metas: map<File, Meta>, m: Manager)
    requires m.Up?
  {
    match m.pc
    case Idle => PreOk(metas, m)
    case GotCkpt(c) => PreOk(metas, m) && c <= m.unflushed.ckpt && (forall f <- metas :: metas[f].ckpt <= c)
    case Writing(w) => PreOk(metas, m) && Leq(w, m.unflushed) && Bounded(metas, w)
    case Deleting(w, file) =>
      && Top(metas, file) && metas[file] == w && m.pre != Some(file) && file !in m.toRemove
      && Leq(m.flushed, w)
    case PostResolved(w) => PublishOk(metas, m, w)
    case PostCkpt(w) => PublishOk(metas, m, w) && m.flushed.resolved == w.resolved
  }

  predicate PublishOk(metas: map<File, Meta>, m: Manager, w: Meta)
    requires m.Up?
  {
    && m.pre.Some? && Top(metas, m.pre.value) && metas[m.pre.value] == w && m.pre.value !in m.toRemove
    && Leq(m.flushed, w)
  }

  predicate MgrOk(metas: map<File, Meta>, used: set<File>, m: Manager) {
    match m
    case Down => true
    case Walking(todo, seen, read) =>
      && todo + seen <= used
      && forall f <- metas :: f in todo || (f in seen && metas[f] in read)
    case Up(unflushed, flushed, pre, pc, init, toRemove, _, gc) =>
      && toRemove <= used && Bounded(metas, unflushed) && PcOk(metas, m)
      && (init.Cleaning? ==> pc.Idle?) && (pre.Some? ==> pre.value in used)
      && (gc.Some? ==> gc.value <= flushed.ckpt && init.Running?)
  }

  predicate LogsOk(s: State) {
    && s.logs <= s.created
    && forall l <- s.created - s.logs ::
         && l.own && l.logExt && l.parsed.Some? && l.parsed.value.1 in {DdlLog, RowLog}
         && CoversCkpt(s.metas, l.parsed.value.0 + 1)
  }

  predicate ReportsOk(s: State) {
    && (forall v <- s.ckptReports :: CoversCkpt(s.metas, v))
    && (forall v <- s.resolvedReports :: CoversResolved(s.metas, v))
  }

  /** Once `initMeta` is over, what is published is at least every value ever reported. */
  predicate RunningOk(s: State) {
    s.mgr.Up? && !s.mgr.init.Flushing? ==>
      && (forall v <- s.ckptReports :: v <= s.mgr.flushed.ckpt)
      && (forall v <- s.resolvedReports :: v <= s.mgr.flushed.resolved)
  }

  predicate FilesOk(s: State) {
    s.metas.Keys <= s.used && MgrOk(s.metas, s.used, s.mgr)
  }

  predicate Inv(s: State) {
    FilesOk(s) && LogsOk(s) && ReportsOk(s) && RunningOk(s)
  }

  /** No step, a crash included, lets the recoverable values fall. */
  lemma StepKeepsCover(s: State, step: Step, s': State)
    requires Inv(s) && Next(s, step, s')
    ensures forall v :: CoversCkpt(s.metas, v) ==> CoversCkpt(s'.metas, v)
    ensures forall v :: CoversResolved(s.metas, v) ==> CoversResolved(s'.metas, v)
  {
    match step
    case DeletePrevious => TopCovers(s.metas, s'.metas, s.mgr.pc.file);
    case CleanOne(file) => TopCovers(s.metas, s'.metas, s.mgr.pre.value);
    case WriteFile(file) =>
      assert forall f <- s.metas :: f in s'.metas && s'.metas[f] == s.metas[f];
    case _ =>
  }

  lemma WalkKeepsMgr(s: State, step: Step, s': State)
    requires FilesOk(s) && Next(s, step, s') && (step.Start? || step.Walk? || step.WalkDone?)
    ensures FilesOk(s')
  {
  }

  lemma WriteKeepsMgr(s: State, file: File, s': State)
    requires FilesOk(s) && Next(s, WriteFile(file), s')
    ensures FilesOk(s')
  {
  }

  lemma DeleteKeepsMgr(s: State, s': State)
    requires FilesOk(s) && Next(s, DeletePrevious, s')
    ensures FilesOk(s')
  {
  }

  lemma CleanKeepsMgr(s: State, file: File, s': State)
    requires FilesOk(s) && Next(s, CleanOne(file), s')
    ensures FilesOk(s')
  {
  }

  /** The steps of a flush that leave the files alone. */
  lemma FlushKeepsMgr(s: State, step: Step, s': State)
    requires FilesOk(s) && Next(s, step, s')
    requires step.FlushCkpt? || step.FlushResolved? || step.PublishResolved? || step.PublishCkpt?
    ensures FilesOk(s')
  {
  }

  lemma UpdateKeepsMgr(s: State, step: Step, s': State)
    requires FilesOk(s) && Next(s, step, s') && (step.UpdateResolved? || step.UpdateCkpt?)
    ensures FilesOk(s')
  {
  }

  lemma StepKeepsMgr(s: State, step: Step, s': State)
    requires Inv(s) && Next(s, step, s')
    ensures FilesOk(s')
  {
    match step
    case Start(_) => WalkKeepsMgr(s, step, s');
    case Walk(_) => WalkKeepsMgr(s, step, s');
    case WalkDone => WalkKeepsMgr(s, step, s');
    case UpdateResolved(_) => UpdateKeepsMgr(s, step, s');
    case UpdateCkpt(_) => UpdateKeepsMgr(s, step, s');
    case WriteFile(file) => WriteKeepsMgr(s, file, s');
    case DeletePrevious => DeleteKeepsMgr(s, s');
    case CleanOne(file) => CleanKeepsMgr(s, file, s');
    case FlushCkpt => FlushKeepsMgr(s, step, s');
    case FlushResolved => FlushKeepsMgr(s, step, s');
    case PublishResolved => FlushKeepsMgr(s, step, s');
    case PublishCkpt => FlushKeepsMgr(s, step, s');
    case _ =>
  }

  lemma PublishedIsCovered(metas: map<File, Meta>, used: set<File>, m: Manager)
    requires m.Up? && MgrOk(metas, used, m)
    ensures CoversCkpt(metas, m.flushed.ckpt) && CoversResolved(metas, m.flushed.resolved)
  {
  }

  lemma StepKeepsLogs(s: State, step: Step, s': State)
    requires Inv(s) && Next(s, step, s')
    ensures LogsOk(s') && ReportsOk(s')
  {
    StepKeepsCover(s, step, s');
    if s.mgr.Up? {
      PublishedIsCovered(s.metas, s.used, s.mgr);
    }
    match step
    case GcRemove(l) =>
      assert s'.created - s'.logs == s.created - s.logs + {l};
      assert l.parsed.value.0 + 1 <= s.mgr.flushed.ckpt;
    case _ => assert s'.created - s'.logs == s.created - s.logs;
  }

  /** Everything covered is below a file on top. */
  lemma CoveredBelowTop(s: State, f: File)
    requires Top(s.metas, f) && ReportsOk(s)
    ensures forall v <- s.ckptReports :: v <= s.metas[f].ckpt
    ensures forall v <- s.resolvedReports :: v <= s.metas[f].resolved
  {
  }

  lemma StepKeepsRunning(s: State, step: Step, s': State)
    requires Inv(s) && Next(s, step, s')
    ensures RunningOk(s')
  {
    if step.PublishCkpt? {
      CoveredBelowTop(s, s.mgr.pre.value);
    }
  }

  lemma StepKeepsInv(s: State, step: Step, s': State)
    requires Inv(s) && Next(s, step, s')
    ensures Inv(s')
  {
    StepKeepsMgr(s, step, s');
    StepKeepsLogs(s, step, s');
    StepKeepsRunning(s, step, s');
  }

  // ---------------------------------------------------------------------------------------------
  // Whole runs
  // ---------------------------------------------------------------------------------------------

  ghost predicate Run(states: seq<State>, steps: seq<Step>) {
    && |states| == |steps| + 1 && states[0] == INIT
    && forall i | 0 <= i < |steps| :: Next(states[i], steps[i], states[i + 1])
  }

  lemma {:induction false} RunKeepsInv(states: seq<State>, steps: seq<Step>, n: nat)
    requires Run(states, steps) && n <= |steps|
    ensures Inv(states[n])
    decreases n
  {
    if n > 0 {
      RunKeepsInv(states, steps, n - 1);
      StepKeepsInv(states[n - 1], steps[n - 1], states[n]);
    }
  }

  /** Whenever the owner crashes, reading the meta files that survive gives at least every value that
      GetFlushedMeta has reported, in this life or an earlier one. */
  lemma ReportedMetaSurvives(states: seq<State>, steps: seq<Step>, n: nat, files: seq<Meta>)
    requires Run(states, steps) && n <= |steps|
    requires forall f <- states[n].metas :: states[n].metas[f] in files
    ensures forall v <- states[n].ckptReports :: v <= MaxCkpt(files)
    ensures forall v <- states[n].resolvedReports :: v <= MaxResolved(files)
  {
    RunKeepsInv(states, steps, n);
  }

  /** A log file that garbage collection has removed is one of the changefeed's own DDL or row logs, and
      held nothing at or above the checkpoint that the surviving meta files give. */
  lemma RemovedLogsAreBelowCheckpoint(states: seq<State>, steps: seq<Step>, n: nat, l: LogFile, files: seq<Meta>)
    requires Run(states, steps) && n <= |steps|
    requires forall f <- states[n].metas :: states[n].metas[f] in files
    requires l in states[n].created && l !in states[n].logs
    ensures l.own && l.logExt && l.parsed.Some? && l.parsed.value.1 in {DdlLog, RowLog}
    ensures l.parsed.value.0 < MaxCkpt(files)
  {
    RunKeepsInv(states, steps, n);
    assert l in states[n].created - states[n].logs;
  }

  /** What a running manager reports never falls below anything reported before, crashes included. */
  lemma ReportsNeverRegress(states: seq<State>, steps: seq<Step>, n: nat)
    requires Run(states, steps) && n <= |steps| && states[n].mgr.Up? && states[n].mgr.init.Running?
    ensures forall v <- states[n].ckptReports :: v <= states[n].mgr.flushed.ckpt
    ensures forall v <- states[n].resolvedReports :: v <= states[n].mgr.flushed.resolved
  {
    RunKeepsInv(states, steps, n);
  }

  /** A collection up to `ckpt` can remove a stored file if and only if it is such a log with a smaller ts. */
  lemma RemovableIff(s: State, l: LogFile)
    requires s.mgr.Up? && s.mgr.gc.Some?
    ensures (exists s' :: Next(s, GcRemove(l), s')) <==>
            && l in s.logs && l.own && l.logExt && l.parsed.Some? && l.parsed.value.1 in {DdlLog, RowLog}
            && l.parsed.value.0 < s.mgr.gc.value
  {
    var s' := s.(logs := s.logs - {l});
    if ShouldRemoved(l, s.mgr.gc.value) && l in s.logs {
      assert Next(s, GcRemove(l), s');
    }
  }

  /** A collection can start if and only if the manager is running, none is under way and the published
      checkpoint has changed since the last. */
  lemma CollectsIff(s: State)
    ensures (exists s' :: Next(s, GcStart, s')) <==>
            s.mgr.Up? && s.mgr.init == Running && s.mgr.gc.None? && s.mgr.flushed.ckpt != s.mgr.preCkpt
    ensures forall s' :: Next(s, GcStart, s') ==> s'.mgr.Up? && s'.mgr.preCkpt == s.mgr.flushed.ckpt
  {
    if s.mgr.Up? && s.mgr.init == Running && s.mgr.gc.None? && s.mgr.flushed.ckpt != s.mgr.preCkpt {
      var s' := s.(mgr := s.mgr.(gc := Some(s.mgr.flushed.ckpt), preCkpt := s.mgr.flushed.ckpt));
      assert Next(s, GcStart, s');
    }
  }

  /** Values given to the manager go their way: they are taken if larger, a flush that finds either ahead of
      what is published writes both, and at its end exactly what it wrote is published. */
  lemma UpdatesAreFlushed(states: seq<State>, steps: seq<Step>, n: nat)
    requires Run(states, steps) && n < |steps|
    ensures steps[n].UpdateCkpt? ==> states[n + 1].mgr.Up? && states[n + 1].mgr.unflushed.ckpt >= steps[n].ts
    ensures steps[n].UpdateResolved? ==> states[n + 1].mgr.Up? && states[n + 1].mgr.unflushed.resolved >= steps[n].ts
    ensures steps[n].FlushCkpt? ==>
              states[n].mgr.Up? && states[n + 1].mgr.Up? && states[n + 1].mgr.pc == GotCkpt(states[n].mgr.unflushed.ckpt)
    ensures steps[n].FlushResolved? ==>
              && states[n].mgr.Up? && states[n].mgr.pc.GotCkpt? && states[n + 1].mgr.Up?
              && var m, was := Meta(states[n].mgr.pc.c, states[n].mgr.unflushed.resolved), states[n].mgr.flushed;
                 states[n + 1].mgr.pc == if was.ckpt < m.ckpt || was.resolved < m.resolved then Writing(m) else Idle
    ensures steps[n].WriteFile? ==>
              && states[n].mgr.Up? && states[n].mgr.pc.Writing? && steps[n].file in states[n + 1].metas
              && states[n + 1].metas[steps[n].file] == states[n].mgr.pc.m
    ensures steps[n].DeletePrevious? ==>
              states[n].mgr.Up? && (states[n].mgr.pre.Some? ==> states[n].mgr.pre.value !in states[n + 1].metas)
    ensures steps[n].CleanOne? ==> steps[n].file !in states[n + 1].metas
    ensures steps[n].GcStart? ==>
              states[n].mgr.Up? && states[n + 1].mgr.Up? && states[n + 1].mgr.gc == Some(states[n].mgr.flushed.ckpt)
    ensures steps[n].PublishCkpt? ==>
              && states[n].mgr.Up? && states[n].mgr.pc.PostCkpt? && states[n + 1].mgr.Up?
              && states[n + 1].mgr.flushed == states[n].mgr.pc.m
  {
    RunKeepsInv(states, steps, n);
    assert Next(states[n], steps[n], states[n + 1]);
  }

  /** A restart takes up from the two maxima over the files that survive and its own start ts: not less
      than any of them, and each the value of one of them. */
  lemma RestartTakesMaxima(states: seq<State>, steps: seq<Step>, n: nat)
    requires Run(states, steps) && n < |steps| && steps[n].WalkDone? && states[n + 1].mgr.Up?
    ensures states[n].mgr.Walking?
    ensures var m := states[n + 1].mgr.unflushed;
            && (forall f <- states[n].metas :: states[n].metas[f].ckpt <= m.ckpt && states[n].metas[f].resolved <= m.resolved)
            && (exists x <- states[n].mgr.read :: x.ckpt == m.ckpt) && (exists x <- states[n].mgr.read :: x.resolved == m.resolved)
  {
    RunKeepsInv(states, steps, n);
    assert Next(states[n], steps[n], states[n + 1]);
  }
}
