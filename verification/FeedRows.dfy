/** What a region feed outputs for each entry, said on the fields of the entries: after INITIALIZED, for
    entries that need no prewrite, for rollbacks and resolved timestamps, and once the feed is stopped. */
module FeedRows {
  import opened Matcher
  import opened Prelude
  import opened RegionFeed

  /** The row of a commit that takes its values from a prewrite. */
  function RowOf(c: Row, p: Row): RawKv {
    RawKv(c.op, c.key, p.value, p.oldValue, c.startTs, c.commitTs)
  }

  /** A commit after INITIALIZED: without its prewrite it is an error; otherwise the prewrite is used up,
      and the commit is dropped at or below the table's start ts, an error at or below the resolved ts
      or with an unknown operation, and else output with the value and old value of the prewrite. */
  lemma CommitAfterInitialized(reg: Region, f: Feed, c: Row)
    requires f.initialized && c.kind == Commit && reg.inSpan(c.key)
    ensures var k, h := MatchKey(c.startTs, c.key), HandleEntry(reg, f, c);
            if k !in f.m.unmatched then h.feed == f && h.err == Some(PrewriteNotMatch)
            else
              var rest := f.(m := f.m.(unmatched := f.m.unmatched - {k}));
              if c.commitTs <= reg.startTs then h.feed == rest && h.err.None?
              else if c.commitTs <= f.resolvedTs then h.feed == rest && h.err == Some(CommitBelowResolved)
              else if c.op == OpUnknown then h.feed == rest && h.err == Some(UnknownKvEvent)
              else h.err.None? && h.feed == rest.(out := f.out + [RowOut(RowOf(c, f.m.unmatched[k]))])
  {
  }

  /** A commit before INITIALIZED is output at once only if its prewrite is known with a value and is not
      part of a pipelined transaction; otherwise it waits in the cache. */
  lemma CommitBeforeInitialized(reg: Region, f: Feed, c: Row)
    requires !f.initialized && c.kind == Commit && reg.inSpan(c.key)
    requires c.commitTs > reg.startTs && c.commitTs > f.resolvedTs && c.op != OpUnknown
    ensures var k, h := MatchKey(c.startTs, c.key), HandleEntry(reg, f, c);
            if k in f.m.unmatched && f.m.unmatched[k].value != "" && f.m.unmatched[k].generation == 0
            then h.feed.out == f.out + [RowOut(RowOf(c, f.m.unmatched[k]))] && k !in h.feed.m.unmatched && h.err.None?
            else h.feed == f.(m := f.m.(cachedCommit := f.m.cachedCommit + [c])) && h.err.None?
  {
  }

  /** A COMMITTED entry carries its own values. */
  lemma CommittedEntry(reg: Region, f: Feed, e: Row)
    requires e.kind == Committed && reg.inSpan(e.key)
    ensures var h := HandleEntry(reg, f, e);
            if e.commitTs <= f.resolvedTs then h.feed == f && h.err == Some(CommitBelowResolved)
            else if e.op == OpUnknown then h.feed == f && h.err == Some(UnknownKvEvent)
            else h.err.None? && h.feed == f.(out := f.out + [RowOut(RowOf(e, e))])
  {
  }

  /** Outside the feed's span only INITIALIZED counts. */
  lemma OutOfSpanIsIgnored(reg: Region, f: Feed, e: Row)
    requires !reg.inSpan(e.key) && e.kind != Initialized
    ensures HandleEntry(reg, f, e) == Handled(f, None)
  {
  }

  // ---------------------------------------------------------------------------------------------
  // Prewrites after INITIALIZED
  // ---------------------------------------------------------------------------------------------

  /** `p` outdoes the prewrite: that has no value and is no later, or belongs to an earlier generation. */
  predicate Superseded(e: Row, p: Row) {
    e.kind == Prewrite && if e.value == "" then e.generation <= p.generation else e.generation < p.generation
  }

  /** The entries of the key are prewrites, and the one at `ip` outdoes the others. */
  ghost predicate OnePrewrite(es: seq<Row>, k: MatchKey, ip: nat) {
    && ip < |es| && es[ip].kind == Prewrite && KeyOf(es[ip]) == k && es[ip].value != ""
    && (forall j | 0 <= j < |es| :: !es[j].kind.Initialized?)
    && (forall j | 0 <= j < |es| && j != ip && KeyOf(es[j]) == k :: Superseded(es[j], es[ip]))
  }

  /** What the feed knows of the key: the prewrite `p` once it is seen, before at most one it outdoes. */
  predicate Knows(f: Feed, k: MatchKey, p: Row, seen: bool, before: seq<RawKv>) {
    && f.initialized && RowsFor(f.out, k) == before
    && if seen then k in f.m.unmatched && f.m.unmatched[k] == p else k in f.m.unmatched ==> Superseded(f.m.unmatched[k], p)
  }

  lemma OtherKeyIsLeftAlone(reg: Region, f: Feed, e: Row, k: MatchKey, p: Row, seen: bool, before: seq<RawKv>)
    requires KeyOf(e) != k && !e.kind.Initialized? && HandleEntry(reg, f, e).err.None? && Knows(f, k, p, seen, before)
    ensures Knows(HandleEntry(reg, f, e).feed, k, p, seen, before)
  {
    var f' := HandleEntry(reg, f, e).feed;
    if |f'.out| > |f.out| {
      RowsForAppend(f.out, f'.out[|f.out|], k);
    }
  }

  lemma {:induction false} PrewritesAreKept(reg: Region, f: Feed, es: seq<Row>, k: MatchKey, ip: nat, n: nat)
    requires OnePrewrite(es, k, ip) && n <= |es| && reg.inSpan(k.key) && f.initialized && k !in f.m.unmatched
    requires HandleEntries(reg, f, es[..n]).err.None?
    ensures Knows(HandleEntries(reg, f, es[..n]).feed, k, es[ip], ip < n, RowsFor(f.out, k))
    decreases n
  {
    if n > 0 {
      assert es[..n][..n - 1] == es[..n - 1];
      PrewritesAreKept(reg, f, es, k, ip, n - 1);
      var g, e := HandleEntries(reg, f, es[..n - 1]).feed, es[n - 1];
      if KeyOf(e) != k {
        OtherKeyIsLeftAlone(reg, g, e, k, es[ip], ip < n - 1, RowsFor(f.out, k));
      }
    }
  }

  /** After INITIALIZED too, in whatever order heartbeats, earlier flushes and the prewrite with the final
      value arrive before the commit, exactly one row is output, with that prewrite's values. */
  lemma {:induction false} LatestPrewriteWins(reg: Region, f: Feed, es: seq<Row>, k: MatchKey, ip: nat, c: Row)
    requires OnePrewrite(es, k, ip) && reg.inSpan(k.key) && f.initialized && k !in f.m.unmatched
    requires HandleEntries(reg, f, es).err.None?
    requires c.kind == Commit && KeyOf(c) == k && c.op != OpUnknown
    requires c.commitTs > reg.startTs && c.commitTs > HandleEntries(reg, f, es).feed.resolvedTs
    ensures var h := HandleEntries(reg, f, es + [c]);
            && h.err.None? && k !in h.feed.m.unmatched
            && RowsFor(h.feed.out, k) ==
               RowsFor(f.out, k) + [RawKv(c.op, c.key, es[ip].value, es[ip].oldValue, c.startTs, c.commitTs)]
  {
    assert es[..|es|] == es && (es + [c])[..|es|] == es;
    PrewritesAreKept(reg, f, es, k, ip, |es|);
    var g := HandleEntries(reg, f, es).feed;
    CommitAfterInitialized(reg, g, c);
    RowsForAppend(g.out, RowOut(RowOf(c, es[ip])), k);
  }

  // ---------------------------------------------------------------------------------------------
  // Rollbacks
  // ---------------------------------------------------------------------------------------------

  /** A rollback after INITIALIZED forgets its prewrite and nothing else; before, it waits in the cache. */
  lemma RollbackForgets(reg: Region, f: Feed, e: Row)
    requires e.kind == Rollback && reg.inSpan(e.key)
    ensures var h := HandleEntry(reg, f, e);
            && h.err.None? && h.feed.out == f.out && h.feed.m.cachedCommit == f.m.cachedCommit
            && (f.initialized ==> h.feed.m.unmatched == f.m.unmatched - {MatchKey(e.startTs, e.key)})
            && (!f.initialized ==> h.feed.m.unmatched == f.m.unmatched
                                   && h.feed.m.cachedRollback == f.m.cachedRollback + [e])
  {
  }

  /** INITIALIZED leaves exactly the prewrites that neither a cached commit nor a cached rollback belongs
      to, and empties both caches. */
  lemma {:induction false} LeftAfterInitialized(f: Feed, k: MatchKey)
    requires HandleInitialized(f).err.None?
    ensures var f' := HandleInitialized(f).feed;
            && (k in f'.m.unmatched <==>
                  && k in f.m.unmatched
                  && (forall j | 0 <= j < |f.m.cachedCommit| :: KeyOf(f.m.cachedCommit[j]) != k)
                  && (forall j | 0 <= j < |f.m.cachedRollback| :: KeyOf(f.m.cachedRollback[j]) != k))
            && f'.m.cachedCommit == [] && f'.m.cachedRollback == [] && f'.initialized
  {
    MatchAllLeftOver(f.m.unmatched, f.m.cachedCommit, k);
    var (rows, u) := MatchAll(f.m.unmatched, f.m.cachedCommit);
    EmitRowsAppend(f.(initialized := true, m := MatchState(u, [], f.m.cachedRollback)), rows);
    assert k in KeysOf(f.m.cachedRollback) <==> exists j | 0 <= j < |f.m.cachedRollback| :: KeyOf(f.m.cachedRollback[j]) == k;
  }

  // ---------------------------------------------------------------------------------------------
  // Resolved timestamps and the end of a feed
  // ---------------------------------------------------------------------------------------------

  /** A running, initialized feed outputs every resolved ts that does not fall back, and remembers it; no
      other feed outputs one. */
  lemma ResolvedIsForwardedIff(reg: Region, f: Feed, ts: nat)
    ensures var forwards := f.status == Normal && f.initialized && f.resolvedTs <= ts;
            && (forwards ==> Process(reg, f, Resolved(ts)) == f.(resolvedTs := ts, out := f.out + [ResolvedOut(ts)]))
            && (!forwards ==> Process(reg, f, Resolved(ts)).out == f.out
                              && Process(reg, f, Resolved(ts)).resolvedTs == f.resolvedTs)
            && (ResolvedIn(Process(reg, f, ResolvedBatch(ts)).out, |f.out|, ts) <==> forwards)
  {
  }

  /** Exactly the resolved ts was added to the first `n` outputs. */
  predicate ResolvedIn(out: seq<Output>, n: nat, ts: nat) {
    |out| == n + 1 && out[n] == ResolvedOut(ts)
  }

  /** A running feed handles a batch entry by entry; an error removes it, and nothing else but a store
      error does. */
  lemma BatchIsHandled(reg: Region, f: Feed, rows: seq<Row>)
    requires f.status == Normal
    ensures var h, f' := HandleEntries(reg, f, rows), Process(reg, f, Entries(rows));
            && f'.out == h.feed.out && f'.m == h.feed.m && f'.initialized == h.feed.initialized
            && (f'.status == Removed <==> h.err.Some?)
  {
    EntriesKeepStatus(reg, f, rows);
  }

  lemma {:induction false} EntriesKeepStatus(reg: Region, f: Feed, es: seq<Row>)
    ensures HandleEntries(reg, f, es).feed.status == f.status
    decreases |es|
  {
    if es != [] {
      EntriesKeepStatus(reg, f, es[..|es| - 1]);
      var g := HandleEntries(reg, f, es[..|es| - 1]).feed;
      var (rows, u) := MatchAll(g.m.unmatched, g.m.cachedCommit);
      EmitRowsAppend(g.(initialized := true, m := MatchState(u, [], g.m.cachedRollback)), rows);
    }
  }

  /** A store error removes a running feed, and a stream marks it stopped; a stopped feed is removed at the
      next event of its own.  None of them outputs anything. */
  lemma FeedEnds(reg: Region, f: Feed, ev: Event)
    requires !ev.Resolved? && !ev.ResolvedBatch?
    requires f.status == Normal ==> ev.StoreError? || ev.StreamStop?
    ensures var f' := Process(reg, f, ev);
            && f'.out == f.out
            && f'.status == if ev.StreamStop? then (if f.status == Normal then Stopped else f.status) else Removed
  {
  }

  /** A feed that was stopped outputs nothing any more, and never runs again. */
  lemma {:induction false} StoppedFeedIsSilent(reg: Region, f: Feed, evs: seq<Event>)
    requires f.status != Normal
    ensures ProcessAll(reg, f, evs).out == f.out && ProcessAll(reg, f, evs).status != Normal
    decreases |evs|
  {
    if evs != [] {
      StoppedFeedIsSilent(reg, f, evs[..|evs| - 1]);
    }
  }
}
