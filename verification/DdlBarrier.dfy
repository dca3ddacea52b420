/** The barrier the owner hands to the scheduler: how far the tables may advance while DDL events
    are pending.  At most 256 tables are listed by name; the rest fall back to the global bound. */
module DdlBarrier {
  import opened DdlEvents
  import opened Prelude

  const TABLE_BARRIER_LIMIT: nat := 256

  datatype TableBarrier = TableBarrier(tableId: TableId, barrierTs: nat)

  datatype Barrier = Barrier(globalTs: nat, minTableTs: nat, redoTs: nat, tables: seq<TableBarrier>)

  /** `m` is the least of `floor` and the commit timestamps of the selected events. */
  ghost predicate Least(m: nat, floor: Option<nat>, ddls: seq<DdlEvent>, keep: DdlEvent -> bool) {
    && (floor.Some? ==> m <= floor.value)
    && (forall d <- ddls :: keep(d) ==> m <= d.commitTs)
    && (floor == Some(m) || exists d <- ddls :: keep(d) && m == d.commitTs)
  }

  // The selections the bounds are taken over.
  function Any(): DdlEvent -> bool { d => true }
  function RedoHolding(redoOn: bool): DdlEvent -> bool { d => redoOn && IsRedoBarrier(d) }
  function Blocking(id: TableId): DdlEvent -> bool { d => Blocks(d, id) }
  function Holding(id: TableId): DdlEvent -> bool { d => IsGlobal(d) || id in Related(d) }

  ghost predicate Selects(ddls: seq<DdlEvent>, keep: DdlEvent -> bool) {
    exists d <- ddls :: keep(d)
  }

  predicate Sorted(ts: seq<TableBarrier>) {
    forall i, j | 0 <= i < j < |ts| :: ts[i].barrierTs <= ts[j].barrierTs
  }

  predicate DistinctIds(ts: seq<TableBarrier>) {
    forall i, j | 0 <= i < j < |ts| :: ts[i].tableId != ts[j].tableId
  }

  /** `full` names every table blocked no later than `globalTs`, once, with its own bound. */
  ghost predicate Lists(full: seq<TableBarrier>, globalTs: nat, ddls: seq<DdlEvent>) {
    && DistinctIds(full)
    && (forall t <- full :: t.barrierTs <= globalTs && Least(t.barrierTs, None, ddls, Blocking(t.tableId)))
    && (forall id: TableId, ts: nat | Least(ts, None, ddls, Blocking(id)) && ts <= globalTs :: TableBarrier(id, ts) in full)
  }

  /** What the barrier must be: the three bounds are minima, and the table list is a sorted full
      listing, cut to the limit with the first table cut off becoming the global bound. */
  ghost predicate BarrierOf(resolvedTs: nat, ddls: seq<DdlEvent>, redoOn: bool, b: Barrier) {
    && Least(b.minTableTs, Some(resolvedTs), ddls, Any())
    && Least(b.redoTs, Some(resolvedTs), ddls, RedoHolding(redoOn))
    && exists g: nat, full ::
         && Least(g, Some(resolvedTs), ddls, IsGlobal)
         && IsCut(g, full, ddls, b)
  }

  ghost predicate IsCut(g: nat, full: seq<TableBarrier>, ddls: seq<DdlEvent>, b: Barrier) {
    && Lists(full, g, ddls) && Sorted(full)
    && if |full| <= TABLE_BARRIER_LIMIT then
         b.globalTs == g && b.tables == full
       else
         b.globalTs == full[TABLE_BARRIER_LIMIT].barrierTs && b.tables == full[..TABLE_BARRIER_LIMIT]
  }

  // ---------------------------------------------------------------------------------------------
  // Computing the barrier
  // ---------------------------------------------------------------------------------------------

  function Lower(m: nat, ts: nat): nat {
    if ts < m then ts else m
  }

  lemma LeastExtend(m: nat, floor: Option<nat>, ddls: seq<DdlEvent>, keep: DdlEvent -> bool, d: DdlEvent)
    requires Least(m, floor, ddls, keep)
    ensures Least(if keep(d) then Lower(m, d.commitTs) else m, floor, ddls + [d], keep)
  {
    var all := ddls + [d];
    assert d in all && forall e <- ddls :: e in all;
  }

  /** The table map after a prefix of the events: exactly the blocked tables, with their minima. */
  ghost predicate TableMapOf(tables: map<TableId, nat>, ddls: seq<DdlEvent>) {
    forall id: TableId ::
      && (id in tables <==> Selects(ddls, Blocking(id)))
      && (id in tables ==> Least(tables[id], None, ddls, Blocking(id)))
  }

  /** `r` is `tables` with `ts` recorded for every table in `ids`. */
  ghost predicate Recorded(tables: map<TableId, nat>, r: map<TableId, nat>, ids: seq<TableId>, ts: nat) {
    && (forall id :: id in r <==> id in tables || id in ids)
    && (forall id <- tables :: r[id] == if id in ids then Lower(tables[id], ts) else tables[id])
    && (forall id <- ids :: id !in tables ==> r[id] == ts)
  }

  method RecordTables(tables: map<TableId, nat>, ids: seq<TableId>, ts: nat) returns (r: map<TableId, nat>)
    ensures Recorded(tables, r, ids, ts)
  {
    r := tables;
    for k := 0 to |ids|
      invariant Recorded(tables, r, ids[..k], ts)
    {
      var id := ids[k];
      assert ids[..k + 1] == ids[..k] + [id];
      if id in r {
        if ts < r[id] {
          r := r[id := ts];
        }
      } else {
        r := r[id := ts];
      }
    }
    assert ids[..|ids|] == ids;
  }

  lemma TableMapExtend(tables: map<TableId, nat>, r: map<TableId, nat>, ddls: seq<DdlEvent>, d: DdlEvent)
    requires TableMapOf(tables, ddls)
    requires if IsGlobal(d) then r == tables else Recorded(tables, r, Related(d), d.commitTs)
    ensures TableMapOf(r, ddls + [d])
  {
    var all := ddls + [d];
    assert d in all;
    forall id: TableId
      ensures id in r <==> Selects(all, Blocking(id))
      ensures id in r ==> Least(r[id], None, all, Blocking(id))
    {
      assert id in tables <==> Selects(ddls, Blocking(id));
      if id in tables {
        LeastExtend(tables[id], None, ddls, Blocking(id), d);
        assert Selects(all, Blocking(id));
      } else if Blocks(d, id) {
        assert r[id] == d.commitTs && Blocking(id)(d);
      }
    }
  }

  function InsertAt(r: seq<TableBarrier>, k: nat, x: TableBarrier): seq<TableBarrier>
    requires k <= |r|
  {
    r[..k] + [x] + r[k..]
  }

  lemma InsertAtKeepsIds(r: seq<TableBarrier>, k: nat, x: TableBarrier)
    requires k <= |r| && DistinctIds(r)
    requires forall i | 0 <= i < |r| :: r[i].tableId != x.tableId
    ensures DistinctIds(InsertAt(r, k, x))
    ensures multiset(InsertAt(r, k, x)) == multiset(r) + multiset{x}
  {
    assert r == r[..k] + r[k..];
  }

  lemma InsertAtKeepsOrder(r: seq<TableBarrier>, k: nat, x: TableBarrier)
    requires k <= |r| && Sorted(r)
    requires forall i | 0 <= i < k :: r[i].barrierTs <= x.barrierTs
    requires forall i | k <= i < |r| :: x.barrierTs <= r[i].barrierTs
    ensures Sorted(InsertAt(r, k, x))
  {
  }

  method InsertByTs(r: seq<TableBarrier>, x: TableBarrier) returns (r': seq<TableBarrier>)
    requires Sorted(r) && DistinctIds(r)
    requires forall i | 0 <= i < |r| :: r[i].tableId != x.tableId
    ensures multiset(r') == multiset(r) + multiset{x}
    ensures Sorted(r') && DistinctIds(r')
  {
    var k := |r|;
    while k > 0 && r[k - 1].barrierTs > x.barrierTs
      invariant 0 <= k <= |r|
      invariant forall j | k <= j < |r| :: x.barrierTs < r[j].barrierTs
    {
      k := k - 1;
    }
    InsertAtKeepsIds(r, k, x);
    InsertAtKeepsOrder(r, k, x);
    r' := InsertAt(r, k, x);
  }

  /** `sort.Slice` by barrier ts. */
  method SortByTs(s: seq<TableBarrier>) returns (r: seq<TableBarrier>)
    requires DistinctIds(s)
    ensures multiset(r) == multiset(s)
    ensures Sorted(r) && DistinctIds(r)
  {
    r := [];
    for i := 0 to |s|
      invariant multiset(r) == multiset(s[..i])
      invariant Sorted(r) && DistinctIds(r)
    {
      forall j | 0 <= j < |r|
        ensures r[j].tableId != s[i].tableId
      {
        assert r[j] in multiset(r);
        assert r[j] in s[..i];
      }
      assert s[..i + 1] == s[..i] + [s[i]];
      r := InsertByTs(r, s[i]);
    }
    assert s[..|s|] == s;
  }

  lemma SortKeepsListing(s: seq<TableBarrier>, r: seq<TableBarrier>, g: nat, ddls: seq<DdlEvent>)
    requires Lists(s, g, ddls) && multiset(s) == multiset(r) && DistinctIds(r)
    ensures Lists(r, g, ddls)
  {
    assert forall t :: t in r <==> t in multiset(r);
    assert forall t :: t in s <==> t in multiset(s);
  }

  /** The selected entries of the table map, each once. */
  predicate Collected(s: seq<TableBarrier>, tables: map<TableId, nat>, seen: set<TableId>, g: nat) {
    && DistinctIds(s)
    && (forall t <- s :: t.tableId in seen && t.tableId in tables && t.barrierTs == tables[t.tableId] <= g)
    && (forall id <- tables :: id in seen && tables[id] <= g ==> TableBarrier(id, tables[id]) in s)
  }

  method CollectTables(tables: map<TableId, nat>, g: nat) returns (s: seq<TableBarrier>)
    ensures Collected(s, tables, tables.Keys, g)
  {
    s := [];
    var rest := tables.Keys;
    while rest != {}
      invariant rest <= tables.Keys
      invariant Collected(s, tables, tables.Keys - rest, g)
    {
      var id :| id in rest;
      if tables[id] <= g {
        var t := TableBarrier(id, tables[id]);
        assert forall i | 0 <= i < |s| :: s[i] in s;
        s := s + [t];
        assert t in s;
      }
      rest := rest - {id};
    }
    assert tables.Keys - rest == tables.Keys;
  }

  lemma CollectedLists(s: seq<TableBarrier>, tables: map<TableId, nat>, g: nat, ddls: seq<DdlEvent>)
    requires TableMapOf(tables, ddls) && Collected(s, tables, tables.Keys, g)
    ensures Lists(s, g, ddls)
  {
    forall id: TableId, ts: nat | Least(ts, None, ddls, Blocking(id)) && ts <= g
      ensures TableBarrier(id, ts) in s
    {
      assert Selects(ddls, Blocking(id));
      assert Least(tables[id], None, ddls, Blocking(id));
    }
  }

  /** `ddlManager.barrier`: one pass over the next events, then listing, sorting and cutting. */
  method ComputeBarrier(resolvedTs: nat, ddls: seq<DdlEvent>, redoOn: bool) returns (b: Barrier)
    ensures BarrierOf(resolvedTs, ddls, redoOn, b)
  {
    var g, m, redo := resolvedTs, resolvedTs, resolvedTs;
    var tables: map<TableId, nat> := map[];
    for i := 0 to |ddls|
      invariant Least(m, Some(resolvedTs), ddls[..i], Any())
      invariant Least(redo, Some(resolvedTs), ddls[..i], RedoHolding(redoOn))
      invariant Least(g, Some(resolvedTs), ddls[..i], IsGlobal)
      invariant TableMapOf(tables, ddls[..i])
    {
      var ddl := ddls[i];
      assert ddls[..i + 1] == ddls[..i] + [ddl];
      LeastExtend(m, Some(resolvedTs), ddls[..i], Any(), ddl);
      LeastExtend(redo, Some(resolvedTs), ddls[..i], RedoHolding(redoOn), ddl);
      LeastExtend(g, Some(resolvedTs), ddls[..i], IsGlobal, ddl);
      if ddl.commitTs < m {
        m := ddl.commitTs;
      }
      if redoOn && IsRedoBarrier(ddl) && ddl.commitTs < redo {
        redo := ddl.commitTs;
      }
      ghost var before := tables;
      if IsGlobal(ddl) {
        if ddl.commitTs < g {
          g := ddl.commitTs;
        }
      } else {
        tables := RecordTables(tables, Related(ddl), ddl.commitTs);
      }
      TableMapExtend(before, tables, ddls[..i], ddl);
    }
    assert ddls[..|ddls|] == ddls;
    var listed := CollectTables(tables, g);
    CollectedLists(listed, tables, g, ddls);
    var full := SortByTs(listed);
    SortKeepsListing(listed, full, g, ddls);
    if |full| > TABLE_BARRIER_LIMIT {
      b := Barrier(full[TABLE_BARRIER_LIMIT].barrierTs, m, redo, full[..TABLE_BARRIER_LIMIT]);
    } else {
      b := Barrier(g, m, redo, full);
    }
    assert IsCut(g, full, ddls, b);
  }

  // ---------------------------------------------------------------------------------------------
  // What the barrier guarantees
  // ---------------------------------------------------------------------------------------------

  /** The barrier a table is held by if the list names it. */
  function ListedTs(tables: seq<TableBarrier>, id: TableId): (r: Option<nat>)
    ensures r.Some? ==> TableBarrier(id, r.value) in tables
    ensures r.None? ==> forall t <- tables :: t.tableId != id
  {
    if tables == [] then None
    else if tables[0].tableId == id then Some(tables[0].barrierTs)
    else ListedTs(tables[1..], id)
  }

  /** How far a physical table may advance under `b`. */
  function Effective(b: Barrier, id: TableId): nat {
    var own := ListedTs(b.tables, id);
    if own.Some? then Lower(b.globalTs, own.value) else b.globalTs
  }

  /** Another barrier of the changefeed lowers the global bound and the minimum alike. */
  function LowerBarrier(b: Barrier, otherTs: nat): Barrier {
    b.(globalTs := Lower(b.globalTs, otherTs), minTableTs := Lower(b.minTableTs, otherTs))
  }

  lemma BlockedHasBound(ddls: seq<DdlEvent>, d: DdlEvent, id: TableId) returns (ts: nat)
    requires d in ddls && Blocks(d, id)
    ensures Least(ts, None, ddls, Blocking(id)) && ts <= d.commitTs
  {
    var m := d.commitTs;
    for k := 0 to |ddls|
      invariant forall e <- ddls[..k] :: Blocks(e, id) ==> m <= e.commitTs
      invariant m <= d.commitTs
      invariant exists e <- ddls :: Blocks(e, id) && m == e.commitTs
    {
      assert ddls[..k + 1] == ddls[..k] + [ddls[k]];
      if Blocks(ddls[k], id) && ddls[k].commitTs < m {
        m := ddls[k].commitTs;
      }
    }
    assert ddls[..|ddls|] == ddls;
    ts := m;
  }

  lemma CutTableHeldByGlobal(g: nat, full: seq<TableBarrier>, ddls: seq<DdlEvent>, b: Barrier, t: TableBarrier)
    requires IsCut(g, full, ddls, b) && t in full && t !in b.tables
    ensures b.globalTs <= t.barrierTs
  {
    var i :| 0 <= i < |full| && full[i] == t;
    assert forall k | 0 <= k < |b.tables| :: b.tables[k] == full[k] != t;
  }

  lemma CutOnlyLowers(g: nat, full: seq<TableBarrier>, ddls: seq<DdlEvent>, b: Barrier)
    requires IsCut(g, full, ddls, b)
    ensures b.globalTs <= g
    ensures forall t <- b.tables :: t in full && t.barrierTs <= b.globalTs
  {
    if |full| > TABLE_BARRIER_LIMIT {
      assert full[TABLE_BARRIER_LIMIT] in full;
    }
  }

  /** Soundness for any number of tables: no table may pass a next DDL that touches it, listed
      tables never exceed the global bound, and a global DDL holds every table. */
  lemma BarrierHoldsEveryTable(resolvedTs: nat, ddls: seq<DdlEvent>, redoOn: bool, b: Barrier, d: DdlEvent, id: TableId)
    requires BarrierOf(resolvedTs, ddls, redoOn, b) && d in ddls
    ensures IsGlobal(d) || id in Related(d) ==> Effective(b, id) <= d.commitTs
    ensures forall t <- b.tables :: t.barrierTs <= b.globalTs
    ensures b.minTableTs <= Effective(b, id) <= resolvedTs
  {
    var g, full :| Least(g, Some(resolvedTs), ddls, IsGlobal) && IsCut(g, full, ddls, b);
    CutOnlyLowers(g, full, ddls, b);
    MinBelowAll(resolvedTs, ddls, redoOn, b, g, full);
    if Blocks(d, id) {
      var ts := BlockedHasBound(ddls, d, id);
      if ts <= g {
        var t := TableBarrier(id, ts);
        assert t in full;
        if t !in b.tables {
          CutTableHeldByGlobal(g, full, ddls, b, t);
        } else {
          var own := ListedTs(b.tables, id);
          assert own.Some?;
          assert Least(own.value, None, ddls, Blocking(id));
        }
      }
    }
  }

  lemma MinBelowAll(resolvedTs: nat, ddls: seq<DdlEvent>, redoOn: bool, b: Barrier, g: nat, full: seq<TableBarrier>)
    requires BarrierOf(resolvedTs, ddls, redoOn, b)
    requires Least(g, Some(resolvedTs), ddls, IsGlobal) && IsCut(g, full, ddls, b)
    ensures b.minTableTs <= b.globalTs <= resolvedTs
    ensures b.minTableTs <= b.redoTs
    ensures forall t <- b.tables :: b.minTableTs <= t.barrierTs
  {
    forall t <- full
      ensures b.minTableTs <= t.barrierTs
    {
      assert Least(t.barrierTs, None, ddls, Blocking(t.tableId));
    }
    CutOnlyLowers(g, full, ddls, b);
  }

  /** Tightness: as long as nothing was cut, a table is held by exactly the resolved ts, the global
      events and the events that touch it, and by nothing else. */
  lemma UncutBarrierIsExact(resolvedTs: nat, ddls: seq<DdlEvent>, redoOn: bool, b: Barrier, id: TableId)
    requires BarrierOf(resolvedTs, ddls, redoOn, b) && |b.tables| < TABLE_BARRIER_LIMIT
    ensures Least(Effective(b, id), Some(resolvedTs), ddls, Holding(id))
  {
    var g, full :| Least(g, Some(resolvedTs), ddls, IsGlobal) && IsCut(g, full, ddls, b);
    forall d <- ddls
      ensures IsGlobal(d) || id in Related(d) ==> Effective(b, id) <= d.commitTs
    {
      BarrierHoldsEveryTable(resolvedTs, ddls, redoOn, b, d, id);
    }
    var own := ListedTs(b.tables, id);
    if own.Some? {
      assert Least(own.value, None, ddls, Blocking(id));
    }
  }
}
