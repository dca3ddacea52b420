/** The Kafka consumer's writer: rows wait in event groups, move to table sinks when their partition's
    watermark passes them, and are flushed before a DDL executes. */
module KafkaConsumer {
  import opened EventGroups
  import opened Prelude

  type TableId = nat

  datatype Protocol = Simple | Open | CanalJson | Other

  /** The code compares DDL events by pointer; `id` stands for the identity of the event object. */
  datatype Ddl = Ddl(commitTs: nat, id: nat)

  /** A row that reached the downstream, and how many DDLs had executed by then. */
  datatype Flushed = Flushed(row: Row, epoch: nat)

  /** A table sink: rows not yet resolved, the largest resolved ts it was given, rows flushed. */
  datatype Sink = Sink(buffer: seq<Row>, maxResolvedTs: nat, flushed: seq<Flushed>)

  const NEW_SINK := Sink([], 0, [])

  /** `accepted` is every row appended to the groups, by table. */
  datatype Partition = Partition(watermark: nat, watermarkOffset: int, groups: map<TableId, Group>,
                                 sinks: map<TableId, Sink>, accepted: map<TableId, seq<Row>>)

  datatype State = State(ddlList: seq<Ddl>, maxDdl: Option<Ddl>, progresses: seq<Partition>, executed: seq<Ddl>)

  function GroupOf(p: Partition, t: TableId): Group {
    if t in p.groups then p.groups[t] else NEW_GROUP
  }

  function SinkOf(p: Partition, t: TableId): Sink {
    if t in p.sinks then p.sinks[t] else NEW_SINK
  }

  function AcceptedOf(p: Partition, t: TableId): seq<Row> {
    if t in p.accepted then p.accepted[t] else []
  }

  // ---------------------------------------------------------------------------------------------
  // What the operations do
  // ---------------------------------------------------------------------------------------------

  /** Whether a row is taken: not below the watermark, and below the group's high watermark only for
      protocols whose groups may mix tables. */
  predicate Accepts(protocol: Protocol, p: Partition, t: TableId, row: Row) {
    row.commitTs >= p.watermark && (row.commitTs >= GroupOf(p, t).highWatermark || protocol.Other?)
  }

  function AfterRow(protocol: Protocol, p: Partition, t: TableId, row: Row): Partition {
    if Accepts(protocol, p, t, row)
    then p.(groups := p.groups[t := AfterAppend(GroupOf(p, t), row)], accepted := p.accepted[t := AcceptedOf(p, t) + [row]])
    else p.(groups := p.groups[t := GroupOf(p, t)])
  }

  /** A watermark that falls back with a newer offset panics; with an older one it is ignored. */
  predicate WatermarkPanics(p: Partition, ts: nat, offset: int) {
    ts < p.watermark && offset > p.watermarkOffset
  }

  function AfterWatermark(p: Partition, ts: nat, offset: int): Partition {
    if ts >= p.watermark then p.(watermark := ts, watermarkOffset := offset) else p
  }

  function ResolveGroup(g: Group, ts: nat): Group {
    g.(events := g.events[Search(g.events, ts)..])
  }

  function FeedSink(s: Sink, g: Group, ts: nat): Sink {
    s.(buffer := s.buffer + g.events[..Search(g.events, ts)])
  }

  /** The groups and sinks once the tables in `done` are resolved; a sink is made for the first rows of
      a table. */
  function ResolvedGroups(p: Partition, ts: nat, done: set<TableId>): map<TableId, Group> {
    map t | t in p.groups :: if t in done then ResolveGroup(p.groups[t], ts) else p.groups[t]
  }

  predicate NeedsSink(p: Partition, ts: nat, t: TableId) {
    t in p.groups && Search(p.groups[t].events, ts) > 0
  }

  function FedSinks(p: Partition, ts: nat, done: set<TableId>): map<TableId, Sink> {
    map t | t in p.sinks.Keys + (set x | x in done && NeedsSink(p, ts, x)) ::
      if t in done && NeedsSink(p, ts, t) then FeedSink(SinkOf(p, t), p.groups[t], ts) else SinkOf(p, t)
  }

  /** Every group gives the rows it finds up to `ts` to the sink of its table. */
  function ResolveAll(p: Partition, ts: nat): Partition {
    p.(groups := ResolvedGroups(p, ts, p.groups.Keys), sinks := FedSinks(p, ts, p.groups.Keys))
  }

  /** `UpdateResolvedTs` and waiting for its rows: nothing happens below an earlier resolved ts. */
  function UpdateSink(s: Sink, ts: nat, epoch: nat): Sink {
    if s.maxResolvedTs >= ts then s
    else
      var n := Search(s.buffer, ts);
      Sink(s.buffer[n..], ts, s.flushed + Stamp(s.buffer[..n], epoch))
  }

  function Stamp(rows: seq<Row>, epoch: nat): seq<Flushed> {
    if rows == [] then [] else Stamp(rows[..|rows| - 1], epoch) + [Flushed(rows[|rows| - 1], epoch)]
  }

  function FlushPartition(p: Partition, ts: nat, epoch: nat): Partition {
    p.(sinks := map t | t in p.sinks :: UpdateSink(p.sinks[t], ts, epoch))
  }

  function FlushAll(ps: seq<Partition>, ts: nat, epoch: nat): (r: seq<Partition>)
    ensures |r| == |ps| && forall i | 0 <= i < |ps| :: r[i] == FlushPartition(ps[i], ts, epoch)
  {
    if ps == [] then []
    else FlushAll(ps[..|ps| - 1], ts, epoch) + [FlushPartition(ps[|ps| - 1], ts, epoch)]
  }

  function AfterDdl(s: State, ddl: Ddl): State {
    if s.maxDdl.Some? && (ddl.commitTs < s.maxDdl.value.commitTs || ddl == s.maxDdl.value) then s
    else s.(ddlList := s.ddlList + [ddl], maxDdl := Some(ddl))
  }

  const MAX_UINT64: nat := 0xFFFF_FFFF_FFFF_FFFF

  function MinWatermark(ps: seq<Partition>): (r: nat)
    ensures forall i | 0 <= i < |ps| :: r <= ps[i].watermark
    ensures r == MAX_UINT64 || exists i | 0 <= i < |ps| :: ps[i].watermark == r
  {
    if ps == [] then MAX_UINT64
    else
      var m, w := MinWatermark(ps[..|ps| - 1]), ps[|ps| - 1].watermark;
      if w < m then w else m
  }

  /** Flush the rows before the front DDL, execute it. */
  function ExecuteFront(s: State): State
    requires s.ddlList != []
  {
    var ddl := s.ddlList[0];
    s.(progresses := FlushAll(s.progresses, ddl.commitTs, |s.executed|), ddlList := s.ddlList[1..],
       executed := s.executed + [ddl])
  }

  function ExecuteUpTo(s: State, watermark: nat): State
    decreases |s.ddlList|
  {
    if s.ddlList == [] || s.ddlList[0].commitTs > watermark then s else ExecuteUpTo(ExecuteFront(s), watermark)
  }

  function AfterWrite(s: State, resolved: bool): State {
    var watermark := MinWatermark(s.progresses);
    var s1 := ExecuteUpTo(s, watermark);
    if resolved then s1.(progresses := FlushAll(s1.progresses, watermark, |s1.executed|)) else s1
  }

  // ---------------------------------------------------------------------------------------------
  // The writer
  // ---------------------------------------------------------------------------------------------

  /** One more table. */
  lemma ResolveOne(p: Partition, ts: nat, done: set<TableId>, t: TableId)
    requires t in p.groups && t !in done
    ensures ResolvedGroups(p, ts, done + {t}) ==
            if NeedsSink(p, ts, t) then ResolvedGroups(p, ts, done)[t := ResolveGroup(p.groups[t], ts)]
            else ResolvedGroups(p, ts, done)
  {
    if !NeedsSink(p, ts, t) {
      assert ResolveGroup(p.groups[t], ts) == p.groups[t];
    }
  }

  lemma FeedOne(p: Partition, ts: nat, done: set<TableId>, t: TableId)
    requires t in p.groups && t !in done
    ensures FedSinks(p, ts, done + {t}) ==
            if NeedsSink(p, ts, t) then FedSinks(p, ts, done)[t := FeedSink(SinkOf(p, t), p.groups[t], ts)]
            else FedSinks(p, ts, done)
  {
  }

  method ResolveRowChangedEvents(p: Partition, ts: nat) returns (r: Partition)
    ensures r == ResolveAll(p, ts)
  {
    var groups, sinks, todo := p.groups, p.sinks, p.groups.Keys;
    while todo != {}
      invariant todo <= p.groups.Keys
      invariant groups == ResolvedGroups(p, ts, p.groups.Keys - todo)
      invariant sinks == FedSinks(p, ts, p.groups.Keys - todo)
    {
      var t :| t in todo;
      ResolveOne(p, ts, p.groups.Keys - todo, t);
      FeedOne(p, ts, p.groups.Keys - todo, t);
      assert p.groups.Keys - (todo - {t}) == p.groups.Keys - todo + {t};
      var g := groups[t];
      if Search(g.events, ts) != 0 {
        var sink := if t in sinks then sinks[t] else NEW_SINK;
        sinks := sinks[t := FeedSink(sink, g, ts)];
        groups := groups[t := ResolveGroup(g, ts)];
      }
      todo := todo - {t};
    }
    assert p.groups.Keys - {} == p.groups.Keys;
    r := p.(groups := groups, sinks := sinks);
  }

  method SyncFlush(p: Partition, ts: nat, epoch: nat) returns (r: Partition)
    ensures r == FlushPartition(p, ts, epoch)
  {
    var sinks, todo := p.sinks, p.sinks.Keys;
    while todo != {}
      invariant todo <= p.sinks.Keys && sinks.Keys == p.sinks.Keys
      invariant forall t <- p.sinks :: sinks[t] == if t in todo then p.sinks[t] else UpdateSink(p.sinks[t], ts, epoch)
    {
      var t :| t in todo;
      todo := todo - {t};
      sinks := sinks[t := UpdateSink(p.sinks[t], ts, epoch)];
    }
    r := p.(sinks := sinks);
  }

  class Writer {
    const protocol: Protocol
    var ddlList: seq<Ddl>
    var ddlWithMaxCommitTs: Option<Ddl>
    var progresses: seq<Partition>
    var executed: seq<Ddl>

    function Value(): State
      reads this
    {
      State(ddlList, ddlWithMaxCommitTs, progresses, executed)
    }

    constructor (protocol: Protocol, partitionNum: nat)
      ensures Init(Value()) && |progresses| == partitionNum && this.protocol == protocol
    {
      this.protocol := protocol;
      ddlList, ddlWithMaxCommitTs, executed := [], None, [];
      progresses := seq(partitionNum, i => NEW_PARTITION);
    }

    method AppendDDL(ddl: Ddl)
      modifies this
      ensures Value() == AfterDdl(old(Value()), ddl)
    {
      if ddlWithMaxCommitTs.Some? && ddl.commitTs < ddlWithMaxCommitTs.value.commitTs {
        return;
      }
      if ddlWithMaxCommitTs.Some? && ddl == ddlWithMaxCommitTs.value {
        return;
      }
      ddlList := ddlList + [ddl];
      ddlWithMaxCommitTs := Some(ddl);
    }

    method AppendRow2Group(i: nat, t: TableId, row: Row)
      requires i < |progresses|
      modifies this
      ensures Value() == OnRow(protocol, old(Value()), i, t, row)
    {
      var p := progresses[i];
      var group := GroupOf(p, t);
      p := p.(groups := p.groups[t := group]);
      assert p.groups[t := AfterAppend(group, row)] == progresses[i].groups[t := AfterAppend(group, row)];
      if row.commitTs >= p.watermark && (row.commitTs >= group.highWatermark || protocol.Other?) {
        p := p.(groups := p.groups[t := AfterAppend(group, row)], accepted := p.accepted[t := AcceptedOf(p, t) + [row]]);
      }
      progresses := progresses[i := p];
    }

    /** A resolved message; false is the panic on a watermark that falls back. */
    method HandleResolved(i: nat, ts: nat, offset: int) returns (ok: bool)
      requires i < |progresses|
      modifies this
      ensures ok == !WatermarkPanics(old(progresses)[i], ts, offset)
      ensures ok <==> old(progresses)[i].watermark <= ts || offset <= old(progresses)[i].watermarkOffset
      ensures Value() == if ok then OnResolved(old(Value()), i, ts, offset) else old(Value())
    {
      var p := progresses[i];
      if ts >= p.watermark {
        p := p.(watermark := ts, watermarkOffset := offset);
      } else if offset > p.watermarkOffset {
        return false;
      }
      p := ResolveRowChangedEvents(p, ts);
      progresses := progresses[i := p];
      return true;
    }

    method GetMinWatermark() returns (r: nat)
      ensures r == MinWatermark(progresses)
    {
      r := MAX_UINT64;
      for i := 0 to |progresses|
        invariant r == MinWatermark(progresses[..i])
      {
        assert progresses[..i + 1][..i] == progresses[..i];
        if progresses[i].watermark < r {
          r := progresses[i].watermark;
        }
      }
      assert progresses[..|progresses|] == progresses;
    }

    method FlushPartitions(ts: nat)
      modifies this`progresses
      ensures progresses == FlushAll(old(progresses), ts, |executed|)
    {
      for i := 0 to |progresses|
        invariant |progresses| == |old(progresses)|
        invariant forall j | 0 <= j < |progresses| ::
                    progresses[j] == if j < i then FlushPartition(old(progresses)[j], ts, |executed|) else old(progresses)[j]
      {
        var p := SyncFlush(progresses[i], ts, |executed|);
        progresses := progresses[i := p];
      }
    }

    method Write(resolved: bool)
      modifies this
      ensures Value() == AfterWrite(old(Value()), resolved)
    {
      var watermark := GetMinWatermark();
      while ddlList != [] && ddlList[0].commitTs <= watermark
        invariant ExecuteUpTo(Value(), watermark) == ExecuteUpTo(old(Value()), watermark)
        decreases |ddlList|
      {
        FlushPartitions(ddlList[0].commitTs);
        executed := executed + [ddlList[0]];
        ddlList := ddlList[1..];
      }
      if resolved {
        FlushPartitions(watermark);
      }
    }
  }

  const NEW_PARTITION := Partition(0, 0, map[], map[], map[])

  predicate Init(s: State) {
    && s.ddlList == [] && s.maxDdl.None? && s.executed == []
    && forall i | 0 <= i < |s.progresses| :: s.progresses[i] == NEW_PARTITION
  }

  function OnRow(protocol: Protocol, s: State, i: nat, t: TableId, row: Row): State
    requires i < |s.progresses|
  {
    s.(progresses := s.progresses[i := AfterRow(protocol, s.progresses[i], t, row)])
  }

  function OnResolved(s: State, i: nat, ts: nat, offset: int): State
    requires i < |s.progresses|
  {
    s.(progresses := s.progresses[i := ResolveAll(AfterWatermark(s.progresses[i], ts, offset), ts)])
  }

  // ---------------------------------------------------------------------------------------------
  // What every step keeps
  // ---------------------------------------------------------------------------------------------

  function Unstamp(flushed: seq<Flushed>): (r: seq<Row>)
    ensures |r| == |flushed| && forall k | 0 <= k < |r| :: r[k] == flushed[k].row
  {
    if flushed == [] then [] else Unstamp(flushed[..|flushed| - 1]) + [flushed[|flushed| - 1].row]
  }

  lemma {:induction false} StampIs(rows: seq<Row>, epoch: nat)
    ensures |Stamp(rows, epoch)| == |rows|
    ensures forall k | 0 <= k < |rows| :: Stamp(rows, epoch)[k] == Flushed(rows[k], epoch)
  {
    if rows != [] {
      StampIs(rows[..|rows| - 1], epoch);
    }
  }

  /** No row is below a DDL that has executed. */
  predicate Passed(executed: seq<Ddl>, rows: seq<Row>) {
    forall i | 0 <= i < |executed| :: AtLeast(rows, executed[i].commitTs)
  }

  /** A flushed row is not below any DDL that executed before it. */
  predicate FlushedOk(executed: seq<Ddl>, flushed: seq<Flushed>) {
    forall k | 0 <= k < |flushed| ::
      && flushed[k].epoch <= |executed|
      && forall i | 0 <= i < flushed[k].epoch :: executed[i].commitTs <= flushed[k].row.commitTs
  }

  /** Where the accepted rows of a table are: flushed, then in the sink, then in the group, in order. */
  predicate RowsOk(g: Group, s: Sink, accepted: seq<Row>) {
    && accepted == Unstamp(s.flushed) + s.buffer + g.events
    && Sorted(accepted) && AtMost(accepted, g.highWatermark)
    && g.highWatermark == if accepted == [] then 0 else accepted[|accepted| - 1].commitTs
  }

  predicate TableOk(executed: seq<Ddl>, watermark: nat, g: Group, s: Sink, accepted: seq<Row>) {
    && RowsOk(g, s, accepted)
    && AtLeast(g.events, watermark) && AtLeast(s.buffer, s.maxResolvedTs) && s.maxResolvedTs <= watermark
    && Passed(executed, s.buffer) && Passed(executed, g.events) && FlushedOk(executed, s.flushed)
  }

  ghost predicate PartitionOk(executed: seq<Ddl>, p: Partition) {
    && (forall i | 0 <= i < |executed| :: executed[i].commitTs <= p.watermark)
    && forall t: TableId :: TableOk(executed, p.watermark, GroupOf(p, t), SinkOf(p, t), AcceptedOf(p, t))
  }

  predicate DdlsSorted(all: seq<Ddl>, maxDdl: Option<Ddl>) {
    && (forall i, j | 0 <= i < j < |all| :: all[i].commitTs <= all[j].commitTs)
    && maxDdl == if all == [] then None else Some(all[|all| - 1])
  }

  predicate DdlsOk(s: State) {
    DdlsSorted(s.executed + s.ddlList, s.maxDdl)
  }

  ghost predicate Inv(s: State) {
    DdlsOk(s) && forall i | 0 <= i < |s.progresses| :: PartitionOk(s.executed, s.progresses[i])
  }

  // Rows.

  lemma RowKeepsTable(executed: seq<Ddl>, watermark: nat, g: Group, s: Sink, accepted: seq<Row>, row: Row)
    requires TableOk(executed, watermark, g, s, accepted) && row.commitTs >= watermark && row.commitTs >= g.highWatermark
    requires forall i | 0 <= i < |executed| :: executed[i].commitTs <= watermark
    ensures TableOk(executed, watermark, AfterAppend(g, row), s, accepted + [row])
  {
    assert Unstamp(s.flushed) + s.buffer + (g.events + [row]) == Unstamp(s.flushed) + s.buffer + g.events + [row];
  }

  lemma RowKeepsPartition(protocol: Protocol, executed: seq<Ddl>, p: Partition, t: TableId, row: Row)
    requires PartitionOk(executed, p) && !protocol.Other?
    ensures PartitionOk(executed, AfterRow(protocol, p, t, row))
  {
    var p' := AfterRow(protocol, p, t, row);
    forall x: TableId
      ensures TableOk(executed, p'.watermark, GroupOf(p', x), SinkOf(p', x), AcceptedOf(p', x))
    {
      assert TableOk(executed, p.watermark, GroupOf(p, x), SinkOf(p, x), AcceptedOf(p, x));
      if x == t && Accepts(protocol, p, t, row) {
        RowKeepsTable(executed, p.watermark, GroupOf(p, t), SinkOf(p, t), AcceptedOf(p, t), row);
        assert GroupOf(p', x) == AfterAppend(GroupOf(p, t), row) && AcceptedOf(p', x) == AcceptedOf(p, t) + [row];
      } else {
        assert GroupOf(p', x) == GroupOf(p, x) && AcceptedOf(p', x) == AcceptedOf(p, x);
      }
    }
  }

  // Watermarks.

  lemma SortedPart(a: seq<Row>, b: seq<Row>, c: seq<Row>)
    requires Sorted(a + b + c)
    ensures Sorted(b) && Sorted(c)
  {
    var all := a + b + c;
    assert forall i | 0 <= i < |b| :: b[i] == all[|a| + i];
    assert forall i | 0 <= i < |c| :: c[i] == all[|a| + |b| + i];
  }

  /** Rows that move from the group to the sink stay in order. */
  lemma ResolveKeepsRows(g: Group, s: Sink, accepted: seq<Row>, n: nat)
    requires RowsOk(g, s, accepted) && n <= |g.events|
    ensures RowsOk(g.(events := g.events[n..]), s.(buffer := s.buffer + g.events[..n]), accepted)
  {
    assert g.events == g.events[..n] + g.events[n..];
    assert Unstamp(s.flushed) + s.buffer + g.events == Unstamp(s.flushed) + (s.buffer + g.events[..n]) + g.events[n..];
  }

  lemma ResolveKeepsTable(executed: seq<Ddl>, watermark: nat, g: Group, s: Sink, accepted: seq<Row>, ts: nat, watermark': nat)
    requires TableOk(executed, watermark, g, s, accepted) && watermark' == if ts >= watermark then ts else watermark
    ensures TableOk(executed, watermark', ResolveGroup(g, ts), FeedSink(s, g, ts), accepted)
  {
    SortedPart(Unstamp(s.flushed), s.buffer, g.events);
    SearchSplits(g.events, ts);
    ResolveKeepsRows(g, s, accepted, Search(g.events, ts));
  }

  lemma ResolvedTableIs(p: Partition, ts: nat, t: TableId)
    ensures GroupOf(ResolveAll(p, ts), t) == ResolveGroup(GroupOf(p, t), ts)
    ensures SinkOf(ResolveAll(p, ts), t) == FeedSink(SinkOf(p, t), GroupOf(p, t), ts)
  {
    var s, g := SinkOf(p, t), GroupOf(p, t);
    if !NeedsSink(p, ts, t) {
      assert Search(g.events, ts) == 0;
      assert s.buffer + [] == s.buffer;
    }
  }

  lemma ResolvedKeepsTable(executed: seq<Ddl>, p: Partition, ts: nat, offset: int, t: TableId)
    requires TableOk(executed, p.watermark, GroupOf(p, t), SinkOf(p, t), AcceptedOf(p, t))
    ensures var p' := ResolveAll(AfterWatermark(p, ts, offset), ts);
            TableOk(executed, p'.watermark, GroupOf(p', t), SinkOf(p', t), AcceptedOf(p', t))
  {
    var p1 := AfterWatermark(p, ts, offset);
    ResolvedTableIs(p1, ts, t);
    ResolveKeepsTable(executed, p.watermark, GroupOf(p, t), SinkOf(p, t), AcceptedOf(p, t), ts, p1.watermark);
  }

  lemma ResolvedKeepsPartition(executed: seq<Ddl>, p: Partition, ts: nat, offset: int)
    requires PartitionOk(executed, p)
    ensures PartitionOk(executed, ResolveAll(AfterWatermark(p, ts, offset), ts))
  {
    var p' := ResolveAll(AfterWatermark(p, ts, offset), ts);
    forall t: TableId
      ensures TableOk(executed, p'.watermark, GroupOf(p', t), SinkOf(p', t), AcceptedOf(p', t))
    {
      ResolvedKeepsTable(executed, p, ts, offset, t);
    }
  }

  // Flushing.

  /** Moving rows from the buffer to the flushed ones keeps the order. */
  lemma FlushKeepsRows(flushed: seq<Flushed>, buffer: seq<Row>, events: seq<Row>, n: nat, epoch: nat)
    requires n <= |buffer|
    ensures Unstamp(flushed + Stamp(buffer[..n], epoch)) + buffer[n..] + events == Unstamp(flushed) + buffer + events
  {
    StampIs(buffer[..n], epoch);
    assert Unstamp(flushed + Stamp(buffer[..n], epoch)) == Unstamp(flushed) + buffer[..n];
    assert buffer == buffer[..n] + buffer[n..];
  }

  lemma FlushKeepsFlushed(executed: seq<Ddl>, flushed: seq<Flushed>, rows: seq<Row>)
    requires FlushedOk(executed, flushed) && Passed(executed, rows)
    ensures FlushedOk(executed, flushed + Stamp(rows, |executed|))
  {
    StampIs(rows, |executed|);
  }

  lemma FlushKeepsTable(executed: seq<Ddl>, watermark: nat, g: Group, s: Sink, accepted: seq<Row>, ts: nat)
    requires TableOk(executed, watermark, g, s, accepted) && ts <= watermark
    ensures TableOk(executed, watermark, g, UpdateSink(s, ts, |executed|), accepted)
    ensures AtLeast(UpdateSink(s, ts, |executed|).buffer, ts)
  {
    if s.maxResolvedTs < ts {
      var n := Search(s.buffer, ts);
      SortedPart(Unstamp(s.flushed), s.buffer, g.events);
      SearchSplits(s.buffer, ts);
      FlushKeepsRows(s.flushed, s.buffer, g.events, n, |executed|);
      FlushKeepsFlushed(executed, s.flushed, s.buffer[..n]);
    }
  }

  lemma {:induction false} FlushKeepsPartition(executed: seq<Ddl>, p: Partition, ts: nat)
    requires PartitionOk(executed, p) && ts <= p.watermark
    ensures PartitionOk(executed, FlushPartition(p, ts, |executed|))
    ensures forall t: TableId :: AtLeast(SinkOf(FlushPartition(p, ts, |executed|), t).buffer, ts)
  {
    var p' := FlushPartition(p, ts, |executed|);
    forall t: TableId
      ensures TableOk(executed, p'.watermark, GroupOf(p', t), SinkOf(p', t), AcceptedOf(p', t))
      ensures AtLeast(SinkOf(p', t).buffer, ts)
    {
      assert TableOk(executed, p.watermark, GroupOf(p, t), SinkOf(p, t), AcceptedOf(p, t));
      if t in p.sinks {
        FlushKeepsTable(executed, p.watermark, GroupOf(p, t), p.sinks[t], AcceptedOf(p, t), ts);
        assert SinkOf(p', t) == UpdateSink(p.sinks[t], ts, |executed|);
      } else {
        assert SinkOf(p', t) == NEW_SINK;
      }
    }
  }

  /** Once its rows are flushed up to the DDL, a partition stands the DDL. */
  lemma ExecuteKeepsPartition(executed: seq<Ddl>, p: Partition, ddl: Ddl)
    requires PartitionOk(executed, p) && ddl.commitTs <= p.watermark
    ensures PartitionOk(executed + [ddl], FlushPartition(p, ddl.commitTs, |executed|))
  {
    var p' := FlushPartition(p, ddl.commitTs, |executed|);
    FlushKeepsPartition(executed, p, ddl.commitTs);
    forall t: TableId
      ensures TableOk(executed + [ddl], p'.watermark, GroupOf(p', t), SinkOf(p', t), AcceptedOf(p', t))
    {
      assert TableOk(executed, p'.watermark, GroupOf(p', t), SinkOf(p', t), AcceptedOf(p', t));
      assert AtLeast(SinkOf(p', t).buffer, ddl.commitTs);
      assert AtLeast(GroupOf(p', t).events, ddl.commitTs);
    }
  }

  lemma ExecuteKeepsInv(s: State)
    requires Inv(s) && s.ddlList != [] && s.ddlList[0].commitTs <= MinWatermark(s.progresses)
    ensures Inv(ExecuteFront(s)) && MinWatermark(ExecuteFront(s).progresses) == MinWatermark(s.progresses)
  {
    var s' := ExecuteFront(s);
    forall i | 0 <= i < |s'.progresses|
      ensures PartitionOk(s'.executed, s'.progresses[i])
    {
      ExecuteKeepsPartition(s.executed, s.progresses[i], s.ddlList[0]);
    }
    FlushKeepsWatermark(s.progresses, s.ddlList[0].commitTs, |s.executed|);
    ExecuteKeepsDdls(s);
  }

  lemma ExecuteKeepsDdls(s: State)
    requires DdlsOk(s) && s.ddlList != []
    ensures DdlsOk(ExecuteFront(s))
  {
    assert s.executed + [s.ddlList[0]] + s.ddlList[1..] == s.executed + s.ddlList;
  }

  lemma {:induction false} FlushKeepsWatermark(ps: seq<Partition>, ts: nat, epoch: nat)
    ensures MinWatermark(FlushAll(ps, ts, epoch)) == MinWatermark(ps)
  {
    if ps != [] {
      FlushKeepsWatermark(ps[..|ps| - 1], ts, epoch);
    }
  }

  lemma {:induction false} ExecuteUpToKeepsInv(s: State, watermark: nat)
    requires Inv(s) && watermark == MinWatermark(s.progresses)
    ensures Inv(ExecuteUpTo(s, watermark)) && MinWatermark(ExecuteUpTo(s, watermark).progresses) == watermark
    decreases |s.ddlList|
  {
    if s.ddlList != [] && s.ddlList[0].commitTs <= watermark {
      ExecuteKeepsInv(s);
      ExecuteUpToKeepsInv(ExecuteFront(s), watermark);
    }
  }

  lemma WriteKeepsInv(s: State, resolved: bool)
    requires Inv(s)
    ensures Inv(AfterWrite(s, resolved))
  {
    var watermark := MinWatermark(s.progresses);
    ExecuteUpToKeepsInv(s, watermark);
    var s1 := ExecuteUpTo(s, watermark);
    if resolved {
      var s' := s1.(progresses := FlushAll(s1.progresses, watermark, |s1.executed|));
      forall i | 0 <= i < |s'.progresses|
        ensures PartitionOk(s'.executed, s'.progresses[i])
      {
        FlushKeepsPartition(s1.executed, s1.progresses[i], watermark);
      }
    }
  }

  lemma DdlKeepsInv(s: State, ddl: Ddl)
    requires Inv(s)
    ensures Inv(AfterDdl(s, ddl))
  {
    var s' := AfterDdl(s, ddl);
    if s' != s {
      DdlKeepsOrder(s.executed + s.ddlList, s.maxDdl, ddl);
      assert s'.executed + s'.ddlList == s.executed + s.ddlList + [ddl];
    }
  }

  lemma DdlKeepsOrder(all: seq<Ddl>, maxDdl: Option<Ddl>, ddl: Ddl)
    requires DdlsSorted(all, maxDdl) && (maxDdl.Some? ==> maxDdl.value.commitTs <= ddl.commitTs)
    ensures DdlsSorted(all + [ddl], Some(ddl))
  {
  }

  // ---------------------------------------------------------------------------------------------
  // Whole runs
  // ---------------------------------------------------------------------------------------------

  datatype Step = RowStep(i: nat, t: TableId, row: Row) | DdlStep(ddl: Ddl) | ResolvedStep(i: nat, ts: nat, offset: int)
                | WriteStep(resolved: bool)

  ghost predicate Next(protocol: Protocol, s: State, step: Step, s': State) {
    match step
    case RowStep(i, t, row) => i < |s.progresses| && s' == OnRow(protocol, s, i, t, row)
    case DdlStep(ddl) => s' == AfterDdl(s, ddl)
    case ResolvedStep(i, ts, offset) =>
      && i < |s.progresses| && !WatermarkPanics(s.progresses[i], ts, offset)
      && s' == OnResolved(s, i, ts, offset)
    case WriteStep(resolved) => s' == AfterWrite(s, resolved)
  }

  ghost predicate Run(protocol: Protocol, states: seq<State>, steps: seq<Step>) {
    && |states| == |steps| + 1 && Init(states[0])
    && forall i | 0 <= i < |steps| :: Next(protocol, states[i], steps[i], states[i + 1])
  }

  lemma StepKeepsInv(protocol: Protocol, s: State, step: Step, s': State)
    requires Inv(s) && !protocol.Other? && Next(protocol, s, step, s')
    ensures Inv(s')
  {
    match step
    case RowStep(i, t, row) => RowKeepsPartition(protocol, s.executed, s.progresses[i], t, row);
    case DdlStep(ddl) => DdlKeepsInv(s, ddl);
    case ResolvedStep(i, ts, offset) => ResolvedKeepsPartition(s.executed, s.progresses[i], ts, offset);
    case WriteStep(resolved) => WriteKeepsInv(s, resolved);
  }

  lemma {:induction false} RunKeepsInv(protocol: Protocol, states: seq<State>, steps: seq<Step>, n: nat)
    requires Run(protocol, states, steps) && !protocol.Other? && n <= |steps|
    ensures Inv(states[n])
    decreases n
  {
    if n > 0 {
      RunKeepsInv(protocol, states, steps, n - 1);
      StepKeepsInv(protocol, states[n - 1], steps[n - 1], states[n]);
    }
  }

  /** For simple, open and canal-json: the accepted rows of a table are, in order and without loss, the
      flushed ones, those in the table sink and those in the group, and the group stays sorted. */
  lemma NoRowIsLost(protocol: Protocol, states: seq<State>, steps: seq<Step>, n: nat, i: nat, t: TableId)
    requires Run(protocol, states, steps) && !protocol.Other? && n <= |steps| && i < |states[n].progresses|
    ensures var p := states[n].progresses[i];
            && AcceptedOf(p, t) == Unstamp(SinkOf(p, t).flushed) + SinkOf(p, t).buffer + GroupOf(p, t).events
            && Sorted(AcceptedOf(p, t)) && Sorted(GroupOf(p, t).events)
  {
    RunKeepsInv(protocol, states, steps, n);
    var p := states[n].progresses[i];
    assert PartitionOk(states[n].executed, p);
    assert TableOk(states[n].executed, p.watermark, GroupOf(p, t), SinkOf(p, t), AcceptedOf(p, t));
    SortedPart(Unstamp(SinkOf(p, t).flushed), SinkOf(p, t).buffer, GroupOf(p, t).events);
  }

  /** When a DDL executes, every row accepted with a smaller CommitTs, in every partition, was flushed
      before; and none with a smaller CommitTs is accepted later. */
  lemma RowsPrecedeDdl(protocol: Protocol, states: seq<State>, steps: seq<Step>, n: nat, i: nat, t: TableId, k: nat, d: nat)
    requires Run(protocol, states, steps) && !protocol.Other? && n <= |steps|
    requires i < |states[n].progresses| && d < |states[n].executed| && k < |AcceptedOf(states[n].progresses[i], t)|
    requires AcceptedOf(states[n].progresses[i], t)[k].commitTs < states[n].executed[d].commitTs
    ensures var flushed := SinkOf(states[n].progresses[i], t).flushed;
            k < |flushed| && flushed[k].row == AcceptedOf(states[n].progresses[i], t)[k] && flushed[k].epoch <= d
  {
    RunKeepsInv(protocol, states, steps, n);
    var p, executed := states[n].progresses[i], states[n].executed;
    var g, s, a := GroupOf(p, t), SinkOf(p, t), AcceptedOf(p, t);
    assert PartitionOk(executed, p);
    assert TableOk(executed, p.watermark, g, s, a);
    assert AtLeast(s.buffer, executed[d].commitTs) && AtLeast(g.events, executed[d].commitTs);
  }

  /** DDLs execute in nondecreasing CommitTs order, and after none that still waits is smaller. */
  lemma DdlsExecuteInOrder(protocol: Protocol, states: seq<State>, steps: seq<Step>, n: nat)
    requires Run(protocol, states, steps) && !protocol.Other? && n <= |steps|
    ensures forall i, j | 0 <= i < j < |states[n].executed| :: states[n].executed[i].commitTs <= states[n].executed[j].commitTs
    ensures forall d <- states[n].executed, w <- states[n].ddlList :: d.commitTs <= w.commitTs
  {
    RunKeepsInv(protocol, states, steps, n);
    var s := states[n];
    var all := s.executed + s.ddlList;
    assert forall i | 0 <= i < |s.executed| :: all[i] == s.executed[i];
    assert forall j | 0 <= j < |s.ddlList| :: all[|s.executed| + j] == s.ddlList[j];
  }

  // ---------------------------------------------------------------------------------------------
  // What is taken, what is handed on, what executes
  // ---------------------------------------------------------------------------------------------

  /** A step of a run for one table of a partition. */
  lemma TableIsOk(protocol: Protocol, states: seq<State>, steps: seq<Step>, n: nat, i: nat, t: TableId)
    requires Run(protocol, states, steps) && !protocol.Other? && n <= |steps| && i < |states[n].progresses|
    ensures var p := states[n].progresses[i];
            TableOk(states[n].executed, p.watermark, GroupOf(p, t), SinkOf(p, t), AcceptedOf(p, t))
  {
    RunKeepsInv(protocol, states, steps, n);
    assert PartitionOk(states[n].executed, states[n].progresses[i]);
  }

  /** For simple, open and canal-json a row joins its table's accepted rows if and only if its CommitTs is
      not below the partition's watermark and not below any row accepted for the table; the other tables
      and partitions keep theirs. */
  lemma RowAcceptedIff(protocol: Protocol, states: seq<State>, steps: seq<Step>, n: nat, j: nat, x: TableId)
    requires Run(protocol, states, steps) && !protocol.Other? && n < |steps| && steps[n].RowStep?
    requires j < |states[n].progresses|
    ensures steps[n].i < |states[n].progresses| == |states[n + 1].progresses|
    ensures var i, t, row := steps[n].i, steps[n].t, steps[n].row;
            var p, p' := states[n].progresses[j], states[n + 1].progresses[j];
            AcceptedOf(p', x) ==
            if && j == i && x == t && p.watermark <= row.commitTs
               && (forall k | 0 <= k < |AcceptedOf(p, t)| :: AcceptedOf(p, t)[k].commitTs <= row.commitTs)
            then AcceptedOf(p, x) + [row] else AcceptedOf(p, x)
  {
    assert Next(protocol, states[n], steps[n], states[n + 1]);
    TableIsOk(protocol, states, steps, n, steps[n].i, steps[n].t);
  }

  /** Every other protocol takes any row that is not below the watermark. */
  lemma OtherRowAcceptedIff(p: Partition, t: TableId, row: Row)
    ensures AcceptedOf(AfterRow(Other, p, t, row), t) ==
            if p.watermark <= row.commitTs then AcceptedOf(p, t) + [row] else AcceptedOf(p, t)
    ensures GroupOf(AfterRow(Other, p, t, row), t).events ==
            if p.watermark <= row.commitTs then GroupOf(p, t).events + [row] else GroupOf(p, t).events
  {
  }

  /** No other step accepts rows. */
  lemma OnlyRowsAreAccepted(protocol: Protocol, s: State, step: Step, s': State, i: nat, t: TableId)
    requires Next(protocol, s, step, s') && !step.RowStep? && i < |s.progresses| && |s'.progresses| == |s.progresses|
    ensures AcceptedOf(s'.progresses[i], t) == AcceptedOf(s.progresses[i], t)
  {
    if step.WriteStep? {
      ExecuteKeepsAccepted(s, MinWatermark(s.progresses), i, t);
    }
  }

  lemma {:induction false} ExecuteKeepsAccepted(s: State, watermark: nat, i: nat, t: TableId)
    requires i < |s.progresses|
    ensures |ExecuteUpTo(s, watermark).progresses| == |s.progresses|
    ensures AcceptedOf(ExecuteUpTo(s, watermark).progresses[i], t) == AcceptedOf(s.progresses[i], t)
    decreases |s.ddlList|
  {
    if s.ddlList != [] && s.ddlList[0].commitTs <= watermark {
      ExecuteKeepsAccepted(ExecuteFront(s), watermark, i, t);
    }
  }

  /** A watermark of a partition is the largest it was given, and moves exactly the rows up to it from the
      group to the sink. */
  lemma WatermarkHandsOn(protocol: Protocol, states: seq<State>, steps: seq<Step>, n: nat, t: TableId)
    requires Run(protocol, states, steps) && !protocol.Other? && n < |steps| && steps[n].ResolvedStep?
    ensures steps[n].i < |states[n].progresses| == |states[n + 1].progresses|
    ensures var i, ts := steps[n].i, steps[n].ts;
            var p, p' := states[n].progresses[i], states[n + 1].progresses[i];
            && p'.watermark == Max(p.watermark, ts)
            && p'.watermarkOffset == (if p.watermark <= ts then steps[n].offset else p.watermarkOffset)
            && SinkOf(p', t).buffer == SinkOf(p, t).buffer + UpTo(GroupOf(p, t).events, ts)
            && GroupOf(p', t).events == Above(GroupOf(p, t).events, ts)
  {
    assert Next(protocol, states[n], steps[n], states[n + 1]);
    var i, ts := steps[n].i, steps[n].ts;
    NoRowIsLost(protocol, states, steps, n, i, t);
    ResolveIsExactIff(AfterWatermark(states[n].progresses[i], ts, steps[n].offset), ts, t);
  }

  /** Flushing to a ts above the last one hands on exactly the rows up to it, in order. */
  lemma FlushIsExact(s: Sink, ts: nat, epoch: nat)
    requires Sorted(s.buffer) && s.maxResolvedTs < ts
    ensures var s' := UpdateSink(s, ts, epoch);
            && Unstamp(s'.flushed) == Unstamp(s.flushed) + UpTo(s.buffer, ts) && s'.buffer == Above(s.buffer, ts)
            && s'.maxResolvedTs == ts
  {
    SearchIsExactIff(s.buffer, ts);
    StampIs(UpTo(s.buffer, ts), epoch);
  }

  /** A DDL is queued if and only if none queued or executed before is later, and it is not the last of
      them again. */
  lemma DdlQueuedIff(protocol: Protocol, states: seq<State>, steps: seq<Step>, n: nat)
    requires Run(protocol, states, steps) && !protocol.Other? && n < |steps| && steps[n].DdlStep?
    ensures var all, ddl := states[n].executed + states[n].ddlList, steps[n].ddl;
            && states[n + 1].executed == states[n].executed
            && states[n + 1].ddlList ==
               if (forall d <- all :: d.commitTs <= ddl.commitTs) && (all == [] || all[|all| - 1] != ddl)
               then states[n].ddlList + [ddl] else states[n].ddlList
  {
    RunKeepsInv(protocol, states, steps, n);
    assert Next(protocol, states[n], steps[n], states[n + 1]);
    var all := states[n].executed + states[n].ddlList;
    assert all != [] ==> all[|all| - 1] in all;
  }

  lemma {:induction false} ExecutesAll(s: State, watermark: nat)
    ensures var s' := ExecuteUpTo(s, watermark);
            && s'.executed + s'.ddlList == s.executed + s.ddlList && |s'.executed| >= |s.executed|
            && (s'.ddlList != [] ==> s'.ddlList[0].commitTs > watermark)
            && forall i | |s.executed| <= i < |s'.executed| :: s'.executed[i].commitTs <= watermark
    decreases |s.ddlList|
  {
    if s.ddlList != [] && s.ddlList[0].commitTs <= watermark {
      ExecutesAll(ExecuteFront(s), watermark);
      var s' := ExecuteUpTo(s, watermark);
      assert (s'.executed + s'.ddlList)[|s.executed|] == s.ddlList[0];
    }
  }

  /** Writing executes exactly the queued DDLs that no partition's watermark is below, in order; after a
      resolved message every sink has been told the least watermark. */
  lemma WriteExecutesIff(protocol: Protocol, states: seq<State>, steps: seq<Step>, n: nat)
    requires Run(protocol, states, steps) && !protocol.Other? && n < |steps| && steps[n].WriteStep?
    ensures var s, s' := states[n], states[n + 1];
            && s'.executed + s'.ddlList == s.executed + s.ddlList
            && (forall d <- s'.ddlList ::
                  d.commitTs > MAX_UINT64 || exists i | 0 <= i < |s.progresses| :: s.progresses[i].watermark < d.commitTs)
            && (forall i, j | |s.executed| <= i < |s'.executed| && 0 <= j < |s.progresses| ::
                  s'.executed[i].commitTs <= s.progresses[j].watermark)
            && (steps[n].resolved ==> forall i | 0 <= i < |s'.progresses| :: forall t <- s'.progresses[i].sinks ::
                  MinWatermark(s.progresses) <= s'.progresses[i].sinks[t].maxResolvedTs)
  {
    RunKeepsInv(protocol, states, steps, n);
    assert Next(protocol, states[n], steps[n], states[n + 1]);
    var s := states[n];
    var w := MinWatermark(s.progresses);
    ExecutesAll(s, w);
    ExecuteUpToKeepsInv(s, w);
    WaitingIsAbove(ExecuteUpTo(s, w), w);
  }

  /** The first DDL that waits is the least. */
  lemma WaitingIsAbove(s: State, watermark: nat)
    requires DdlsOk(s) && (s.ddlList != [] ==> s.ddlList[0].commitTs > watermark)
    ensures forall d <- s.ddlList :: d.commitTs > watermark
  {
    var all := s.executed + s.ddlList;
    assert forall j | 0 <= j < |s.ddlList| :: all[|s.executed| + j] == s.ddlList[j];
  }

  // ---------------------------------------------------------------------------------------------
  // Other protocols
  // ---------------------------------------------------------------------------------------------

  /** A sorted group stays sorted exactly when the row is refused or not below the last one. */
  lemma GroupStaysSortedIff(protocol: Protocol, p: Partition, t: TableId, row: Row)
    requires Sorted(GroupOf(p, t).events)
    ensures var events := GroupOf(p, t).events;
            Sorted(GroupOf(AfterRow(protocol, p, t, row), t).events) <==>
            !Accepts(protocol, p, t, row) || events == [] || events[|events| - 1].commitTs <= row.commitTs
  {
    var events := GroupOf(p, t).events;
    if Accepts(protocol, p, t, row) && events != [] {
      var events' := events + [row];
      assert GroupOf(AfterRow(protocol, p, t, row), t).events == events';
      assert events'[|events| - 1] == events[|events| - 1] && events'[|events|] == row;
    }
  }

  /** For any protocol, a watermark moves exactly the rows up to it from the group to the sink, if and
      only if the group has no row above it before one at or below it. */
  lemma ResolveIsExactIff(p: Partition, ts: nat, t: TableId)
    ensures var events := GroupOf(p, t).events;
            && SinkOf(ResolveAll(p, ts), t).buffer == SinkOf(p, t).buffer + UpTo(events, ts)
            && GroupOf(ResolveAll(p, ts), t).events == Above(events, ts)
            <==> Separated(events, ts)
  {
    var events, buffer := GroupOf(p, t).events, SinkOf(p, t).buffer;
    var n := Search(events, ts);
    ResolvedTableIs(p, ts, t);
    SearchIsExactIff(events, ts);
    assert (buffer + events[..n])[|buffer|..] == events[..n];
    assert (buffer + UpTo(events, ts))[|buffer|..] == UpTo(events, ts);
  }

  /** Otherwise a later row is handed out with an earlier one. */
  lemma UnsortedGroupGivesTooMuch()
    ensures var p1 := AfterRow(Other, NEW_PARTITION, 1, Row(5, 0));
            var p2 := AfterRow(Other, p1, 1, Row(3, 1));
            && Row(5, 0) in SinkOf(ResolveAll(AfterWatermark(p2, 4, 1), 4), 1).buffer
            && !Separated(GroupOf(p2, 1).events, 4)
  {
    var p1 := AfterRow(Other, NEW_PARTITION, 1, Row(5, 0));
    var p2 := AfterRow(Other, p1, 1, Row(3, 1));
    var rows := GroupOf(p2, 1).events;
    assert rows == [Row(5, 0), Row(3, 1)];
    assert SearchIn(rows, 4, 2, 2) == 2;
    assert Search(rows, 4) == 2;
    ResolvedTableIs(AfterWatermark(p2, 4, 1), 4, 1);
    assert rows[..2][0] == Row(5, 0);
  }
}
