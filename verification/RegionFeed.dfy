/** One region feed: entries and resolved timestamps from TiKV turned into rows and resolved events.

    A region is always served by one worker, so a feed is a sequential machine. */
module RegionFeed {
  import opened Matcher
  import opened Prelude

  datatype FeedError = CommitBelowResolved | UnknownKvEvent | PrewriteNotMatch

  datatype RawKv = RawKv(op: OpType, key: string, value: string, oldValue: string, startTs: nat, commitTs: nat)

  datatype Output = RowOut(row: RawKv) | ResolvedOut(ts: nat)

  datatype Status = Normal | Stopped | Removed

  /** The part of a region that never changes: the table's start ts and the span of the feed. */
  datatype Region = Region(startTs: nat, inSpan: string -> bool)

  datatype Feed = Feed(m: MatchState, initialized: bool, resolvedTs: nat, status: Status, out: seq<Output>)

  datatype Handled = Handled(feed: Feed, err: Option<FeedError>)

  function Fresh(resolvedTs: nat): Feed {
    Feed(EMPTY, false, resolvedTs, Normal, [])
  }

  function Assemble(row: Row): RawKv {
    RawKv(row.op, row.key, row.value, row.oldValue, row.startTs, row.commitTs)
  }

  function EmitRow(f: Feed, row: Row): Handled {
    if row.op.OpUnknown? then Handled(f, Some(UnknownKvEvent))
    else Handled(f.(out := f.out + [RowOut(Assemble(row))]), None)
  }

  /** Rows are emitted in order up to the first one of an unknown kind. */
  function EmitRows(f: Feed, rows: seq<Row>): Handled {
    if rows == [] then Handled(f, None)
    else
      var h := EmitRows(f, rows[..|rows| - 1]);
      if h.err.Some? then h else EmitRow(h.feed, rows[|rows| - 1])
  }

  function HandleInitialized(f: Feed): Handled {
    var (rows, u) := MatchAll(f.m.unmatched, f.m.cachedCommit);
    var h := EmitRows(f.(initialized := true, m := MatchState(u, [], f.m.cachedRollback)), rows);
    if h.err.Some? then h
    else Handled(h.feed.(m := MatchState(u - KeysOf(f.m.cachedRollback), [], [])), None)
  }

  function HandleCommitted(f: Feed, e: Row): Handled {
    if e.commitTs <= f.resolvedTs then Handled(f, Some(CommitBelowResolved)) else EmitRow(f, e)
  }

  function HandleCommit(reg: Region, f: Feed, e: Row): Handled {
    if !Matches(f.m.unmatched, e, f.initialized) then
      if !f.initialized then Handled(f.(m := f.m.(cachedCommit := f.m.cachedCommit + [e])), None)
      else Handled(f, Some(PrewriteNotMatch))
    else
      var row := Filled(e, f.m.unmatched[KeyOf(e)]);
      var f' := f.(m := f.m.(unmatched := f.m.unmatched - {KeyOf(e)}));
      if e.commitTs <= reg.startTs then Handled(f', None)
      else if e.commitTs <= f.resolvedTs then Handled(f', Some(CommitBelowResolved))
      else EmitRow(f', row)
  }

  function HandleEntry(reg: Region, f: Feed, e: Row): Handled {
    if !e.kind.Initialized? && !reg.inSpan(e.key) then Handled(f, None)
    else match e.kind
      case Initialized => HandleInitialized(f)
      case Committed => HandleCommitted(f, e)
      case Prewrite => Handled(f.(m := f.m.(unmatched := PutPrewrite(f.m.unmatched, e))), None)
      case Commit => HandleCommit(reg, f, e)
      case Rollback =>
        if !f.initialized then Handled(f.(m := f.m.(cachedRollback := f.m.cachedRollback + [e])), None)
        else Handled(f.(m := f.m.(unmatched := f.m.unmatched - {KeyOf(e)})), None)
      case UnknownEntry => Handled(f, None)
  }

  function HandleEntries(reg: Region, f: Feed, es: seq<Row>): Handled {
    if es == [] then Handled(f, None)
    else
      var h := HandleEntries(reg, f, es[..|es| - 1]);
      if h.err.Some? then h else HandleEntry(reg, h.feed, es[|es| - 1])
  }

  /** Forwarding to the puller frontier: nothing before initialization, nothing that falls back. */
  function Forward(f: Feed, ts: nat): Feed {
    if !f.status.Normal? || !f.initialized || ts < f.resolvedTs then f
    else f.(resolvedTs := ts, out := f.out + [ResolvedOut(ts)])
  }

  /** What the worker takes from its queue; `StreamStop` is a stream marking the feed stopped. */
  datatype Event = Entries(rows: seq<Row>) | Resolved(ts: nat) | ResolvedBatch(ts: nat) | StoreError | Admin | StreamStop

  function Process(reg: Region, f: Feed, ev: Event): Feed {
    if ev.StreamStop? then if f.status.Normal? then f.(status := Stopped) else f
    else if ev.ResolvedBatch? then Forward(f, ev.ts)
    else if !f.status.Normal? then f.(status := Removed)
    else match ev
      case Entries(rows) =>
        var h := HandleEntries(reg, f, rows);
        if h.err.Some? then h.feed.(status := Removed) else h.feed
      case Resolved(ts) => Forward(f, ts)
      case StoreError => f.(status := Removed)
      case Admin => f
  }

  function ProcessAll(reg: Region, f: Feed, evs: seq<Event>): Feed {
    if evs == [] then f else Process(reg, ProcessAll(reg, f, evs[..|evs| - 1]), evs[|evs| - 1])
  }

  // ---------------------------------------------------------------------------------------------
  // The feed as the worker runs it
  // ---------------------------------------------------------------------------------------------

  class RegionFeedImpl {
    const matcher: MatcherImpl
    var initialized: bool
    var resolvedTs: nat
    var status: Status
    var out: seq<Output>

    function Value(): Feed
      reads this, matcher
    {
      Feed(matcher.Value(), initialized, resolvedTs, status, out)
    }

    constructor (resolvedTs: nat)
      ensures Value() == Fresh(resolvedTs) && fresh(matcher)
    {
      matcher := new MatcherImpl();
      initialized, this.resolvedTs, status, out := false, resolvedTs, Normal, [];
    }

    method Emit(row: Row) returns (err: Option<FeedError>)
      modifies this`out
      ensures Handled(Value(), err) == EmitRow(old(Value()), row)
    {
      if row.op.OpUnknown? {
        return Some(UnknownKvEvent);
      }
      out := out + [RowOut(Assemble(row))];
      return None;
    }

    method Initialize() returns (err: Option<FeedError>)
      modifies this, matcher
      ensures Handled(Value(), err) == HandleInitialized(old(Value()))
    {
      initialized := true;
      var rows := matcher.MatchCachedRow();
      ghost var f := Value();
      for i := 0 to |rows|
        invariant Handled(Value(), None) == EmitRows(f, rows[..i])
        invariant matcher.Value() == f.m
      {
        assert rows[..i + 1][..i] == rows[..i];
        err := Emit(rows[i]);
        if err.Some? {
          EmitRowsStops(f, rows, i + 1);
          return;
        }
      }
      assert rows[..|rows|] == rows;
      matcher.MatchCachedRollbackRow();
      return None;
    }

    method CommitEntry(reg: Region, e: Row) returns (err: Option<FeedError>)
      modifies this, matcher
      ensures Handled(Value(), err) == HandleCommit(reg, old(Value()), e)
    {
      var ok, row := matcher.MatchRow(e, initialized);
      if !ok {
        if !initialized {
          matcher.CacheCommitRow(e);
          return None;
        }
        return Some(PrewriteNotMatch);
      }
      if e.commitTs <= reg.startTs {
        return None;
      }
      if e.commitTs <= resolvedTs {
        return Some(CommitBelowResolved);
      }
      err := Emit(row);
    }

    method HandleEventEntry(reg: Region, es: seq<Row>) returns (err: Option<FeedError>)
      modifies this, matcher
      ensures Handled(Value(), err) == HandleEntries(reg, old(Value()), es)
    {
      ghost var f := Value();
      for i := 0 to |es|
        invariant Handled(Value(), None) == HandleEntries(reg, f, es[..i])
      {
        assert es[..i + 1][..i] == es[..i];
        var e := es[i];
        if e.kind.Initialized? || reg.inSpan(e.key) {
          err := None;
          match e.kind {
            case Initialized => err := Initialize();
            case Committed =>
              if e.commitTs <= resolvedTs {
                err := Some(CommitBelowResolved);
              } else {
                err := Emit(e);
              }
            case Prewrite => matcher.PutPrewriteRow(e);
            case Commit => err := CommitEntry(reg, e);
            case Rollback =>
              if !initialized {
                matcher.CacheRollbackRow(e);
              } else {
                matcher.RollbackRow(e);
              }
            case UnknownEntry =>
          }
          if err.Some? {
            HandleEntriesStops(reg, f, es, i + 1);
            return;
          }
        }
      }
      assert es[..|es|] == es;
      return None;
    }

    method ForwardResolvedTs(ts: nat)
      modifies this
      ensures Value() == Forward(old(Value()), ts)
    {
      if !status.Normal? || !initialized {
        return;
      }
      if ts < resolvedTs {
        return;
      }
      resolvedTs := ts;
      out := out + [ResolvedOut(ts)];
    }
  }

  /** An error ends the emission of cached rows. */
  lemma {:induction false} EmitRowsStops(f: Feed, rows: seq<Row>, n: nat)
    requires n <= |rows| && EmitRows(f, rows[..n]).err.Some?
    ensures EmitRows(f, rows) == EmitRows(f, rows[..n])
    decreases |rows|
  {
    if n < |rows| {
      assert rows[..|rows| - 1][..n] == rows[..n];
      EmitRowsStops(f, rows[..|rows| - 1], n);
    } else {
      assert rows[..n] == rows;
    }
  }

  /** An error ends the handling of a batch. */
  lemma {:induction false} HandleEntriesStops(reg: Region, f: Feed, es: seq<Row>, n: nat)
    requires n <= |es| && HandleEntries(reg, f, es[..n]).err.Some?
    ensures HandleEntries(reg, f, es) == HandleEntries(reg, f, es[..n])
    decreases |es|
  {
    if n < |es| {
      assert es[..|es| - 1][..n] == es[..n];
      HandleEntriesStops(reg, f, es[..|es| - 1], n);
    } else {
      assert es[..n] == es;
    }
  }

  // ---------------------------------------------------------------------------------------------
  // The resolved promise
  // ---------------------------------------------------------------------------------------------

  /** After a resolved ts only rows above it follow. */
  predicate Promise(out: seq<Output>) {
    forall i, j | 0 <= i < j < |out| :: out[i].ResolvedOut? && out[j].RowOut? ==> out[i].ts < out[j].row.commitTs
  }

  predicate NoneResolved(out: seq<Output>) {
    forall i | 0 <= i < |out| :: out[i].RowOut?
  }

  predicate FeedInv(f: Feed) {
    && Promise(f.out)
    && (forall i | 0 <= i < |f.out| :: f.out[i].ResolvedOut? ==> f.out[i].ts <= f.resolvedTs)
    && (f.initialized ==> f.m.cachedCommit == [])
    && (!f.initialized ==> NoneResolved(f.out))
  }

  lemma {:induction false} EmitRowsOnlyRows(f: Feed, rows: seq<Row>)
    requires NoneResolved(f.out)
    ensures NoneResolved(EmitRows(f, rows).feed.out)
    ensures EmitRows(f, rows).feed == f.(out := EmitRows(f, rows).feed.out)
    decreases |rows|
  {
    if rows != [] {
      EmitRowsOnlyRows(f, rows[..|rows| - 1]);
    }
  }

  lemma EntryKeepsPromise(reg: Region, f: Feed, e: Row)
    requires FeedInv(f)
    ensures FeedInv(HandleEntry(reg, f, e).feed)
  {
    if e.kind.Initialized? {
      if !f.initialized {
        var (rows, u) := MatchAll(f.m.unmatched, f.m.cachedCommit);
        EmitRowsOnlyRows(f.(initialized := true, m := MatchState(u, [], f.m.cachedRollback)), rows);
      }
    }
  }

  lemma {:induction false} EntriesKeepPromise(reg: Region, f: Feed, es: seq<Row>)
    requires FeedInv(f)
    ensures FeedInv(HandleEntries(reg, f, es).feed)
    decreases |es|
  {
    if es != [] {
      EntriesKeepPromise(reg, f, es[..|es| - 1]);
      var h := HandleEntries(reg, f, es[..|es| - 1]);
      EntryKeepsPromise(reg, h.feed, es[|es| - 1]);
    }
  }

  /** In any run of a region feed, once a resolved ts has been forwarded no row at or below it is
      emitted, cached commits included; the commit cache stays empty after initialization. */
  lemma {:induction false} ResolvedPromise(reg: Region, resolvedTs: nat, evs: seq<Event>)
    ensures Promise(ProcessAll(reg, Fresh(resolvedTs), evs).out)
    ensures FeedInv(ProcessAll(reg, Fresh(resolvedTs), evs))
    decreases |evs|
  {
    if evs != [] {
      ResolvedPromise(reg, resolvedTs, evs[..|evs| - 1]);
      var f := ProcessAll(reg, Fresh(resolvedTs), evs[..|evs| - 1]);
      if evs[|evs| - 1].Entries? && f.status.Normal? {
        EntriesKeepPromise(reg, f, evs[|evs| - 1].rows);
      }
    }
  }

  /** The resolved timestamps sent to the frontier never fall back, over any run. */
  lemma {:induction false} ResolvedNeverFallsBack(reg: Region, f: Feed, evs: seq<Event>)
    ensures f.resolvedTs <= ProcessAll(reg, f, evs).resolvedTs
    decreases |evs|
  {
    if evs != [] {
      ResolvedNeverFallsBack(reg, f, evs[..|evs| - 1]);
      var g := ProcessAll(reg, f, evs[..|evs| - 1]);
      if evs[|evs| - 1].Entries? {
        EntriesKeepResolved(reg, g, evs[|evs| - 1].rows);
      }
    }
  }

  lemma {:induction false} EntriesKeepResolved(reg: Region, f: Feed, es: seq<Row>)
    ensures HandleEntries(reg, f, es).feed.resolvedTs == f.resolvedTs
    decreases |es|
  {
    if es != [] {
      EntriesKeepResolved(reg, f, es[..|es| - 1]);
      var g := HandleEntries(reg, f, es[..|es| - 1]).feed;
      var (rows, u) := MatchAll(g.m.unmatched, g.m.cachedCommit);
      EmitRowsAppend(g.(initialized := true, m := MatchState(u, [], g.m.cachedRollback)), rows);
    }
  }

  /** The rows emitted before the first one of an unknown kind. */
  function Emittable(rows: seq<Row>): (n: nat)
    ensures n <= |rows|
  {
    if rows == [] then 0
    else
      var n := Emittable(rows[..|rows| - 1]);
      if n == |rows| - 1 && !rows[|rows| - 1].op.OpUnknown? then n + 1 else n
  }

  lemma {:induction false} EmitRowsAppend(f: Feed, rows: seq<Row>)
    ensures EmitRows(f, rows).feed ==
            f.(out := f.out + seq(Emittable(rows), i requires 0 <= i < Emittable(rows) => RowOut(Assemble(rows[i]))))
    ensures EmitRows(f, rows).err.None? <==> Emittable(rows) == |rows|
    decreases |rows|
  {
    if rows != [] {
      EmitRowsAppend(f, rows[..|rows| - 1]);
    }
  }

  /** Every commit of the cache up to position `n` that finds its prewrite has a known operation. */
  predicate KnownUpTo(u: Unmatched, cached: seq<Row>, n: nat)
    requires n <= |cached|
  {
    forall j | 0 <= j < n :: MatchesAt(u, cached, j) ==> !cached[j].op.OpUnknown?
  }

  /** A commit at or below `ts` sits in the cache, first of its key and with a prewrite, and nothing up to
      it stops the emission. */
  predicate StaleCached(u: Unmatched, cached: seq<Row>, ts: nat) {
    exists i | 0 <= i < |cached| :: cached[i].commitTs <= ts && MatchesAt(u, cached, i) && KnownUpTo(u, cached, i + 1)
  }

  /** What INITIALIZED emits at or below `ts`. */
  predicate EmitsStale(rows: seq<Row>, ts: nat) {
    exists i | 0 <= i < Emittable(rows) :: rows[i].commitTs <= ts
  }

  lemma {:induction false} EmittableAppend(rows: seq<Row>, row: Row)
    ensures Emittable(rows + [row]) ==
            if Emittable(rows) == |rows| && !row.op.OpUnknown? then |rows| + 1 else Emittable(rows)
  {
    assert (rows + [row])[..|rows|] == rows;
  }

  lemma {:induction false} EmitsStaleAppend(rows: seq<Row>, row: Row, ts: nat)
    ensures Emittable(rows + [row]) == |rows| + 1 <==> Emittable(rows) == |rows| && !row.op.OpUnknown?
    ensures EmitsStale(rows + [row], ts) <==>
            EmitsStale(rows, ts) || (Emittable(rows) == |rows| && !row.op.OpUnknown? && row.commitTs <= ts)
  {
    var all := rows + [row];
    EmittableAppend(rows, row);
    if Emittable(all) == |rows| + 1 && row.commitTs <= ts {
      assert all[|rows|].commitTs <= ts;
    }
    if i :| 0 <= i < Emittable(rows) && rows[i].commitTs <= ts {
      assert all[i].commitTs <= ts;
    }
  }

  lemma StaleCachedAppend(u: Unmatched, cached: seq<Row>, row: Row, ts: nat)
    ensures var all := cached + [row];
            && (KnownUpTo(u, all, |all|) <==>
                  KnownUpTo(u, cached, |cached|) && (MatchesAt(u, all, |cached|) ==> !row.op.OpUnknown?))
            && (StaleCached(u, all, ts) <==>
                  || StaleCached(u, cached, ts)
                  || (row.commitTs <= ts && MatchesAt(u, all, |cached|) && KnownUpTo(u, all, |all|)))
  {
    var all := cached + [row];
    assert forall j | 0 <= j < |cached| :: all[j] == cached[j] && MatchesAt(u, all, j) == MatchesAt(u, cached, j);
    assert forall n | 0 <= n <= |cached| :: KnownUpTo(u, all, n) == KnownUpTo(u, cached, n);
    if StaleCached(u, cached, ts) {
      var i :| 0 <= i < |cached| && cached[i].commitTs <= ts && MatchesAt(u, cached, i) && KnownUpTo(u, cached, i + 1);
      assert all[i].commitTs <= ts && MatchesAt(u, all, i) && KnownUpTo(u, all, i + 1);
    }
    if StaleCached(u, all, ts) {
      var i :| 0 <= i < |all| && all[i].commitTs <= ts && MatchesAt(u, all, i) && KnownUpTo(u, all, i + 1);
      assert i < |cached| ==> cached[i].commitTs <= ts && MatchesAt(u, cached, i) && KnownUpTo(u, cached, i + 1);
    }
  }

  /** The cache alone tells what INITIALIZED will emit at or below `ts`. */
  lemma {:induction false} StaleIsSeenInCache(u: Unmatched, cached: seq<Row>, ts: nat)
    ensures var rows := MatchAll(u, cached).0;
            && (Emittable(rows) == |rows| <==> KnownUpTo(u, cached, |cached|))
            && (EmitsStale(rows, ts) <==> StaleCached(u, cached, ts))
    decreases |cached|
  {
    if cached != [] {
      var init, row := cached[..|cached| - 1], cached[|cached| - 1];
      assert cached == init + [row];
      StaleIsSeenInCache(u, init, ts);
      StaleCachedAppend(u, init, row, ts);
      MatchAllLeftOver(u, init, KeyOf(row));
      var (out, u') := MatchAll(u, init);
      if KeyOf(row) in u' {
        EmitsStaleAppend(out, Filled(row, u'[KeyOf(row)]), ts);
      }
    }
  }

  /** The rows that the entry adds to the output are all above `ts`. */
  predicate EmitsAbove(f: Feed, f': Feed, ts: nat) {
    f.out <= f'.out && forall i | |f.out| <= i < |f'.out| :: f'.out[i].RowOut? && f'.out[i].row.commitTs > ts
  }

  lemma InitializedEmitsAboveIff(f: Feed, ts: nat)
    ensures EmitsAbove(f, HandleInitialized(f).feed, ts) <==> !StaleCached(f.m.unmatched, f.m.cachedCommit, ts)
  {
    var f' := HandleInitialized(f).feed;
    var (rows, u) := MatchAll(f.m.unmatched, f.m.cachedCommit);
    EmitRowsAppend(f.(initialized := true, m := MatchState(u, [], f.m.cachedRollback)), rows);
    assert forall i | 0 <= i < Emittable(rows) :: f'.out[|f.out| + i] == RowOut(Assemble(rows[i]));
    StaleIsSeenInCache(f.m.unmatched, f.m.cachedCommit, ts);
    if EmitsStale(rows, ts) {
      var i :| 0 <= i < Emittable(rows) && rows[i].commitTs <= ts;
      assert f'.out[|f.out| + i].row.commitTs <= ts;
    }
  }

  /** The rows an entry emits are all above the region's resolved ts, except when INITIALIZED finds a
      stale commit in the cache: cached commits are not compared. */
  lemma EntryEmitsAboveResolved(reg: Region, f: Feed, e: Row)
    ensures EmitsAbove(f, HandleEntry(reg, f, e).feed, f.resolvedTs) <==>
            !(e.kind.Initialized? && StaleCached(f.m.unmatched, f.m.cachedCommit, f.resolvedTs))
  {
    if e.kind.Initialized? {
      InitializedEmitsAboveIff(f, f.resolvedTs);
    }
  }

  /** A COMMITTED entry is compared with the resolved ts only, which matters while that is below the
      table's start ts. */
  predicate StaleCommitted(reg: Region, f: Feed, e: Row) {
    && e.kind == Committed && reg.inSpan(e.key) && !e.op.OpUnknown?
    && f.resolvedTs < e.commitTs <= reg.startTs
  }

  /** The rows an entry emits are all above the table's start ts, except when INITIALIZED finds a commit
      in the cache that is not, or a COMMITTED entry lies between a lower resolved ts and the start ts. */
  lemma EntryEmitsAboveStart(reg: Region, f: Feed, e: Row)
    ensures EmitsAbove(f, HandleEntry(reg, f, e).feed, reg.startTs) <==>
            && !(e.kind.Initialized? && StaleCached(f.m.unmatched, f.m.cachedCommit, reg.startTs))
            && !StaleCommitted(reg, f, e)
  {
    var f' := HandleEntry(reg, f, e).feed;
    if e.kind.Initialized? {
      InitializedEmitsAboveIff(f, reg.startTs);
    } else if StaleCommitted(reg, f, e) {
      assert f'.out[|f.out|].row.commitTs <= reg.startTs;
    }
  }

  /** Such a commit exists: one with a commit ts below the table's start ts, received before its
      prewrite, is emitted at INITIALIZED although the direct path would drop it as stale. */
  lemma StaleCommitEscapesCheck() returns (reg: Region, es: seq<Row>)
    ensures reg.startTs == 10
    ensures HandleEntries(reg, Fresh(10), es).err == None
    ensures HandleEntries(reg, Fresh(10), es).feed.out == [RowOut(RawKv(OpPut, "k", "v", "", 3, 5))]
  {
    reg := Region(10, k => true);
    var c := Row(Commit, 3, 5, "k", "", "", 0, OpPut);
    var p := Row(Prewrite, 3, 0, "k", "v", "", 0, OpPut);
    var i := Row(Initialized, 0, 0, "", "", "", 0, OpUnknown);
    es := [c, p, i];
    var f0 := Fresh(10);
    var f1 := HandleEntry(reg, f0, c).feed;
    assert f1 == f0.(m := MatchState(map[], [c], []));
    var f2 := HandleEntry(reg, f1, p).feed;
    assert f2.m.unmatched == map[KeyOf(p) := p];
    assert MatchAll(f2.m.unmatched, [c][..0]) == ([], f2.m.unmatched);
    assert MatchAll(f2.m.unmatched, [c]).0 == [Filled(c, p)];
    var rows := [Filled(c, p)];
    assert rows[..0] == [];
    assert es[..0] == [] && es[..1] == [c] && es[..2] == [c, p] && [c, p][..1] == [c] && [c][..0] == [];
    assert HandleEntries(reg, f0, [c]) == Handled(f1, None);
    assert HandleEntries(reg, f0, [c, p]) == Handled(f2, None);
    var u := MatchAll(f2.m.unmatched, [c]).1;
    EmitRowsAppend(f2.(initialized := true, m := MatchState(u, [], [])), rows);
    assert Emittable(rows) == 1 by { assert Emittable(rows[..0]) == 0; }
  }

  // ---------------------------------------------------------------------------------------------
  // Order independence
  // ---------------------------------------------------------------------------------------------

  /** The rows of one transaction and key among the outputs. */
  function RowsFor(out: seq<Output>, k: MatchKey): seq<RawKv> {
    if out == [] then []
    else
      var rest, o := RowsFor(out[..|out| - 1], k), out[|out| - 1];
      if o.RowOut? && MatchKey(o.row.startTs, o.row.key) == k then rest + [o.row] else rest
  }

  lemma RowsForAppend(out: seq<Output>, o: Output, k: MatchKey)
    ensures RowsFor(out + [o], k) ==
            if o.RowOut? && MatchKey(o.row.startTs, o.row.key) == k then RowsFor(out, k) + [o.row] else RowsFor(out, k)
  {
    assert (out + [o])[..|out|] == out;
  }

  function AssembleAll(rows: seq<Row>): seq<RawKv> {
    seq(|rows|, i requires 0 <= i < |rows| => Assemble(rows[i]))
  }

  lemma {:induction false} EmitRowsForKey(f: Feed, rows: seq<Row>, k: MatchKey)
    requires EmitRows(f, rows).err.None?
    ensures RowsFor(EmitRows(f, rows).feed.out, k) == RowsFor(f.out, k) + AssembleAll(ForKey(rows, k))
    decreases |rows|
  {
    if rows != [] {
      var init, row := rows[..|rows| - 1], rows[|rows| - 1];
      EmitRowsForKey(f, init, k);
      RowsForAppend(EmitRows(f, init).feed.out, RowOut(Assemble(row)), k);
    }
  }

  /** A prewrite that the one with the value outdoes: a valueless heartbeat of no later generation, or an
      earlier flush of a pipelined transaction. */
  predicate Outdone(e: Row, p: Row) {
    e.kind == Prewrite && if e.value == "" then e.generation <= p.generation else 0 < e.generation < p.generation
  }

  /** Entries of one transaction and key before INITIALIZED: one prewrite with the final value, one commit
      above the start and resolved timestamps, and any number of prewrites that the first one outdoes,
      in any order and among any entries of other keys. */
  ghost predicate OneCommit(reg: Region, f: Feed, es: seq<Row>, k: MatchKey, ip: nat, ic: nat) {
    && ip < |es| && ic < |es| && ip != ic
    && reg.inSpan(k.key)
    && es[ip].kind == Prewrite && KeyOf(es[ip]) == k && es[ip].value != ""
    && es[ic].kind == Commit && KeyOf(es[ic]) == k && es[ic].commitTs > reg.startTs && es[ic].commitTs > f.resolvedTs
    && (forall j | 0 <= j < |es| :: !es[j].kind.Initialized?)
    && (forall j | 0 <= j < |es| && j != ip && j != ic && KeyOf(es[j]) == k ::
          Outdone(es[j], es[ip]))
  }

  /** What the feed knows of the key after the first `n` entries. */
  predicate KeyState(f: Feed, k: MatchKey, p: Row, c: Row, seenP: bool, seenC: bool, before: seq<RawKv>) {
    var cached, known := ForKey(f.m.cachedCommit, k), k in f.m.unmatched;
    if seenC && RowsFor(f.out, k) != before then
      && RowsFor(f.out, k) == before + [Assemble(Filled(c, p))] && cached == []
    else
      && RowsFor(f.out, k) == before
      && cached == (if seenC then [c] else [])
      && (if seenP then known && f.m.unmatched[k] == p else known ==> Outdone(f.m.unmatched[k], p))
  }

  /** An entry of another key leaves alone what the feed knows of the key. */
  lemma OtherKeyUntouched(reg: Region, f: Feed, e: Row, k: MatchKey)
    requires KeyOf(e) != k && !e.kind.Initialized? && !f.initialized && HandleEntry(reg, f, e).err.None?
    ensures var f' := HandleEntry(reg, f, e).feed;
            && RowsFor(f'.out, k) == RowsFor(f.out, k) && ForKey(f'.m.cachedCommit, k) == ForKey(f.m.cachedCommit, k)
            && (k in f'.m.unmatched <==> k in f.m.unmatched)
            && (k in f.m.unmatched ==> f'.m.unmatched[k] == f.m.unmatched[k]) && !f'.initialized
  {
    var f' := HandleEntry(reg, f, e).feed;
    ForKeyAppend(f.m.cachedCommit, e, k);
    if |f'.out| > |f.out| {
      RowsForAppend(f.out, f'.out[|f.out|], k);
    }
  }

  lemma EntryOfOtherKey(reg: Region, f: Feed, e: Row, k: MatchKey, p: Row, c: Row, seenP: bool, seenC: bool, before: seq<RawKv>)
    requires KeyOf(e) != k && !e.kind.Initialized? && !f.initialized
    requires HandleEntry(reg, f, e).err.None? && KeyState(f, k, p, c, seenP, seenC, before)
    ensures KeyState(HandleEntry(reg, f, e).feed, k, p, c, seenP, seenC, before)
    ensures !HandleEntry(reg, f, e).feed.initialized
  {
    OtherKeyUntouched(reg, f, e, k);
  }

  lemma PrewriteOfThisKey(reg: Region, f: Feed, e: Row, k: MatchKey, p: Row, c: Row, seenP: bool, seenC: bool, before: seq<RawKv>)
    requires KeyOf(e) == k && !f.initialized && reg.inSpan(k.key) && e.kind == Prewrite
    requires HandleEntry(reg, f, e).err.None? && KeyState(f, k, p, c, seenP, seenC, before)
    requires p.value != "" && ((e == p && !seenP) || Outdone(e, p))
    ensures KeyState(HandleEntry(reg, f, e).feed, k, p, c, seenP || e == p, seenC, before)
    ensures !HandleEntry(reg, f, e).feed.initialized
  {
  }

  /** A commit whose prewrite is not known with its value waits. */
  lemma CommitWaits(f: Feed, k: MatchKey, p: Row, c: Row, seenP: bool, before: seq<RawKv>)
    requires KeyOf(c) == k && !f.initialized && !Matches(f.m.unmatched, c, false)
    requires KeyState(f, k, p, c, seenP, false, before)
    ensures KeyState(f.(m := f.m.(cachedCommit := f.m.cachedCommit + [c])), k, p, c, seenP, true, before)
  {
    ForKeyAppend(f.m.cachedCommit, c, k);
  }

  /** One whose prewrite is known goes out at once, and that prewrite is the one with the final value. */
  lemma CommitGoesOut(f: Feed, k: MatchKey, p: Row, c: Row, seenP: bool, before: seq<RawKv>)
    requires KeyOf(c) == k && !f.initialized && Matches(f.m.unmatched, c, false)
    requires KeyState(f, k, p, c, seenP, false, before)
    ensures f.m.unmatched[k] == p
    ensures KeyState(f.(m := f.m.(unmatched := f.m.unmatched - {k}), out := f.out + [RowOut(Assemble(Filled(c, p)))]),
                     k, p, c, seenP, true, before)
  {
    RowsForAppend(f.out, RowOut(Assemble(Filled(c, p))), k);
  }

  lemma CommitOfThisKey(reg: Region, f: Feed, k: MatchKey, p: Row, c: Row, seenP: bool, before: seq<RawKv>)
    requires KeyOf(c) == k && !f.initialized && reg.inSpan(k.key) && c.kind == Commit && c.commitTs > reg.startTs
    requires HandleEntry(reg, f, c).err.None? && KeyState(f, k, p, c, seenP, false, before)
    ensures KeyState(HandleEntry(reg, f, c).feed, k, p, c, seenP, true, before)
    ensures !HandleEntry(reg, f, c).feed.initialized
  {
    if Matches(f.m.unmatched, c, false) {
      CommitGoesOut(f, k, p, c, seenP, before);
    } else {
      CommitWaits(f, k, p, c, seenP, before);
    }
  }

  lemma EntryOfThisKey(reg: Region, f: Feed, e: Row, k: MatchKey, p: Row, c: Row, seenP: bool, seenC: bool, before: seq<RawKv>)
    requires KeyOf(e) == k && !f.initialized && reg.inSpan(k.key)
    requires HandleEntry(reg, f, e).err.None? && KeyState(f, k, p, c, seenP, seenC, before)
    requires p.kind == Prewrite && p.value != "" && c.kind == Commit && KeyOf(c) == k && c.commitTs > reg.startTs
    requires || (e == p && !seenP)
             || (e == c && !seenC)
             || Outdone(e, p)
    ensures KeyState(HandleEntry(reg, f, e).feed, k, p, c, seenP || e == p, seenC || e == c, before)
    ensures !HandleEntry(reg, f, e).feed.initialized
  {
    if e == c {
      CommitOfThisKey(reg, f, k, p, c, seenP, before);
    } else {
      PrewriteOfThisKey(reg, f, e, k, p, c, seenP, seenC, before);
    }
  }

  lemma {:induction false} PrefixKeyState(reg: Region, f: Feed, es: seq<Row>, k: MatchKey, ip: nat, ic: nat, n: nat)
    requires OneCommit(reg, f, es, k, ip, ic) && n <= |es|
    requires !f.initialized && k !in f.m.unmatched && ForKey(f.m.cachedCommit, k) == []
    requires HandleEntries(reg, f, es[..n]).err.None?
    ensures KeyState(HandleEntries(reg, f, es[..n]).feed, k, es[ip], es[ic], ip < n, ic < n, RowsFor(f.out, k))
    ensures !HandleEntries(reg, f, es[..n]).feed.initialized
    decreases n
  {
    if n > 0 {
      assert es[..n][..n - 1] == es[..n - 1];
      PrefixKeyState(reg, f, es, k, ip, ic, n - 1);
      var g, e := HandleEntries(reg, f, es[..n - 1]).feed, es[n - 1];
      if KeyOf(e) != k {
        EntryOfOtherKey(reg, g, e, k, es[ip], es[ic], ip < n - 1, ic < n - 1, RowsFor(f.out, k));
      } else {
        EntryOfThisKey(reg, g, e, k, es[ip], es[ic], ip < n - 1, ic < n - 1, RowsFor(f.out, k));
      }
    }
  }

  lemma {:induction false} BatchOrderDoesNotMatter(reg: Region, f: Feed, es: seq<Row>, k: MatchKey, ip: nat, ic: nat, init: Row)
    requires OneCommit(reg, f, es, k, ip, ic) && init.kind == Initialized
    requires !f.initialized && k !in f.m.unmatched && ForKey(f.m.cachedCommit, k) == []
    requires HandleEntries(reg, f, es + [init]).err.None?
    ensures RowsFor(HandleEntries(reg, f, es + [init]).feed.out, k) ==
            RowsFor(f.out, k) + [Assemble(Filled(es[ic], es[ip]))]
  {
    assert (es + [init])[..|es|] == es && es[..|es|] == es;
    PrefixKeyState(reg, f, es, k, ip, ic, |es|);
    var g := HandleEntries(reg, f, es).feed;
    var (rows, u) := MatchAll(g.m.unmatched, g.m.cachedCommit);
    if RowsFor(g.out, k) == RowsFor(f.out, k) {
      MatchAllFindsOne(g.m.unmatched, g.m.cachedCommit, k, es[ic]);
    } else {
      MatchAllLeavesOthers(g.m.unmatched, g.m.cachedCommit, k);
    }
    EmitRowsForKey(g.(initialized := true, m := MatchState(u, [], g.m.cachedRollback)), rows, k);
  }

  // Which entries cannot fail, and batches of them ------------------------------------------------

  /** Before INITIALIZED such an entry never stops the feed: a row that is emitted has a known operation
      and is above the resolved ts. */
  predicate Harmless(reg: Region, resolvedTs: nat, e: Row) {
    !reg.inSpan(e.key) || match e.kind
      case Initialized => false
      case Committed => !e.op.OpUnknown? && e.commitTs > resolvedTs
      case Commit => !e.op.OpUnknown? && (e.commitTs <= reg.startTs || e.commitTs > resolvedTs)
      case _ => true
  }

  predicate AllHarmless(reg: Region, resolvedTs: nat, es: seq<Row>) {
    forall i | 0 <= i < |es| :: !es[i].kind.Initialized? && Harmless(reg, resolvedTs, es[i])
  }

  /** A feed that waits for INITIALIZED and has cached only commits that can be emitted. */
  predicate Awaiting(f: Feed, resolvedTs: nat) {
    && !f.initialized && f.resolvedTs == resolvedTs && f.status.Normal?
    && forall i | 0 <= i < |f.m.cachedCommit| :: !f.m.cachedCommit[i].op.OpUnknown?
  }

  lemma {:induction false} HarmlessEntriesSucceed(reg: Region, f: Feed, es: seq<Row>, resolvedTs: nat)
    requires Awaiting(f, resolvedTs) && AllHarmless(reg, resolvedTs, es)
    ensures HandleEntries(reg, f, es).err.None? && Awaiting(HandleEntries(reg, f, es).feed, resolvedTs)
    decreases |es|
  {
    if es != [] {
      HarmlessEntriesSucceed(reg, f, es[..|es| - 1], resolvedTs);
      assert Harmless(reg, resolvedTs, es[|es| - 1]);
    }
  }

  lemma InitializedSucceeds(f: Feed, resolvedTs: nat)
    requires Awaiting(f, resolvedTs)
    ensures HandleInitialized(f).err.None? && HandleInitialized(f).feed.status.Normal? && HandleInitialized(f).feed.initialized
  {
    var (rows, u) := MatchAll(f.m.unmatched, f.m.cachedCommit);
    StaleIsSeenInCache(f.m.unmatched, f.m.cachedCommit, 0);
    EmitRowsAppend(f.(initialized := true, m := MatchState(u, [], f.m.cachedRollback)), rows);
  }

  lemma {:induction false} HandleEntriesConcat(reg: Region, f: Feed, a: seq<Row>, b: seq<Row>)
    requires HandleEntries(reg, f, a).err.None?
    ensures HandleEntries(reg, f, a + b) == HandleEntries(reg, HandleEntries(reg, f, a).feed, b)
    decreases |b|
  {
    if b == [] {
      assert a + b == a;
    } else {
      HandleEntriesConcat(reg, f, a, b[..|b| - 1]);
      assert (a + b)[..|a + b| - 1] == a + b[..|b| - 1];
    }
  }

  /** The entries of a run of events, in order. */
  function Flatten(evs: seq<Event>): seq<Row> {
    if evs == [] then []
    else Flatten(evs[..|evs| - 1]) + if evs[|evs| - 1].Entries? then evs[|evs| - 1].rows else []
  }

  predicate NoStops(evs: seq<Event>) {
    forall i | 0 <= i < |evs| :: !evs[i].StoreError? && !evs[i].StreamStop?
  }

  /** Before INITIALIZED, batching does not matter and resolved timestamps do nothing. */
  lemma {:induction false} ProcessAllIsHandleEntries(reg: Region, f: Feed, evs: seq<Event>, resolvedTs: nat)
    requires Awaiting(f, resolvedTs) && NoStops(evs) && AllHarmless(reg, resolvedTs, Flatten(evs))
    ensures ProcessAll(reg, f, evs) == HandleEntries(reg, f, Flatten(evs)).feed
    ensures Awaiting(ProcessAll(reg, f, evs), resolvedTs)
    decreases |evs|
  {
    if evs != [] {
      var init, last := evs[..|evs| - 1], evs[|evs| - 1];
      var a := Flatten(init);
      var b := if last.Entries? then last.rows else [];
      assert forall i | 0 <= i < |a| :: a[i] == Flatten(evs)[i];
      assert forall i | 0 <= i < |b| :: b[i] == Flatten(evs)[|a| + i];
      ProcessAllIsHandleEntries(reg, f, init, resolvedTs);
      HarmlessEntriesSucceed(reg, f, a, resolvedTs);
      HandleEntriesConcat(reg, f, a, b);
      HarmlessEntriesSucceed(reg, HandleEntries(reg, f, a).feed, b, resolvedTs);
    }
  }

  lemma {:induction false} HandledThenInitialized(reg: Region, f: Feed, es: seq<Row>, init: Row)
    requires Awaiting(f, f.resolvedTs) && AllHarmless(reg, f.resolvedTs, es) && init.kind == Initialized
    ensures var h := HandleEntries(reg, f, es + [init]); h.err.None? && h.feed.status.Normal? && h.feed.initialized
  {
    HarmlessEntriesSucceed(reg, f, es, f.resolvedTs);
    InitializedSucceeds(HandleEntries(reg, f, es).feed, f.resolvedTs);
    assert (es + [init])[..|es|] == es;
  }

  lemma {:induction false} LastBatch(reg: Region, f: Feed, evs: seq<Event>, rows: seq<Row>)
    requires ProcessAll(reg, f, evs).status.Normal? && HandleEntries(reg, ProcessAll(reg, f, evs), rows).err.None?
    ensures ProcessAll(reg, f, evs + [Entries(rows)]) == HandleEntries(reg, ProcessAll(reg, f, evs), rows).feed
  {
    assert (evs + [Entries(rows)])[..|evs|] == evs;
  }

  /** INITIALIZED at the end of the last batch. */
  lemma {:induction false} ProcessedIsHandled(reg: Region, f: Feed, evs: seq<Event>, last: seq<Row>, init: Row)
    requires Awaiting(f, f.resolvedTs) && NoStops(evs) && AllHarmless(reg, f.resolvedTs, Flatten(evs) + last)
    requires init.kind == Initialized
    ensures var h := HandleEntries(reg, f, Flatten(evs) + last + [init]);
            && ProcessAll(reg, f, evs + [Entries(last + [init])]) == h.feed && h.err.None?
            && h.feed.status.Normal? && h.feed.initialized
  {
    var a := Flatten(evs);
    assert forall i | 0 <= i < |a| :: a[i] == (a + last)[i];
    HandledThenInitialized(reg, f, a + last, init);
    ProcessAllIsHandleEntries(reg, f, evs, f.resolvedTs);
    HarmlessEntriesSucceed(reg, f, a, f.resolvedTs);
    HandleEntriesConcat(reg, f, a, last + [init]);
    assert a + (last + [init]) == a + last + [init];
    LastBatch(reg, f, evs, last + [init]);
  }

  /** However the prewrite with the final value, the commit, heartbeats and earlier flushes interleave
      before INITIALIZED, over any batches and among resolved timestamps and harmless entries of other
      keys, by its end exactly one row was emitted for the transaction and key: operation, key and
      timestamps of the commit, value and old value of that prewrite. */
  lemma {:induction false} OrderDoesNotMatter(reg: Region, f: Feed, evs: seq<Event>, last: seq<Row>, k: MatchKey, ip: nat, ic: nat, init: Row)
    requires Awaiting(f, f.resolvedTs) && k !in f.m.unmatched && ForKey(f.m.cachedCommit, k) == []
    requires NoStops(evs) && AllHarmless(reg, f.resolvedTs, Flatten(evs) + last) && init.kind == Initialized
    requires OneCommit(reg, f, Flatten(evs) + last, k, ip, ic)
    ensures var es, f' := Flatten(evs) + last, ProcessAll(reg, f, evs + [Entries(last + [init])]);
            && RowsFor(f'.out, k) == RowsFor(f.out, k) + [RawKv(es[ic].op, es[ic].key, es[ip].value, es[ip].oldValue,
                                                                 es[ic].startTs, es[ic].commitTs)]
            && f'.status.Normal? && f'.initialized
  {
    var es := Flatten(evs) + last;
    ProcessedIsHandled(reg, f, evs, last, init);
    BatchOrderDoesNotMatter(reg, f, es, k, ip, ic, init);
  }
}
