/** What the DDL barrier does to a table, said on the fields of the DDL events. */
module BarrierByFields {
  import opened DdlEvents
  import opened DdlBarrier
  import opened Prelude

  /** The actions that hold back only the tables they touch; every other action holds all of them. */
  const OWN_TABLES: set<ActionType> := {
    DropTable, AddColumn, DropColumn, AddIndex, DropIndex, TruncateTable, ModifyColumn, SetDefaultValue,
    ModifyTableComment, RenameIndex, AddTablePartition, DropTablePartition, CreateView,
    ModifyTableCharsetAndCollate, TruncateTablePartition, DropView, RecoverTable, AddPrimaryKey, DropPrimaryKey,
    RebaseAutoID, AlterIndexVisibility, MultiSchemaChange, ReorganizePartition, AlterTTLInfo, AlterTTLRemove,
    AlterTablePartitioning, RemovePartitioning}

  /** The actions that make a physical table, which redo does not know before they are executed. */
  const MAKE_TABLES: set<ActionType> := {
    CreateTable, TruncateTable, AddTablePartition, TruncateTablePartition, RecoverTable, ReorganizePartition,
    AlterTablePartitioning, RemovePartitioning}

  /** The table an event touches: the one before the change, if it names one. */
  function Touched(d: DdlEvent): TableRef {
    match d.pre
    case Some(t) => t
    case None => d.table
  }

  predicate Touches(d: DdlEvent, id: TableId) {
    id == Touched(d).id || id in Touched(d).partitions
  }

  function Holds(id: TableId): DdlEvent -> bool {
    (d: DdlEvent) => d.action !in OWN_TABLES || Touches(d, id)
  }

  function MakesTable(): DdlEvent -> bool {
    (d: DdlEvent) => d.action in MAKE_TABLES
  }

  lemma HoldsIs(d: DdlEvent, id: TableId)
    ensures Holds(id)(d) <==> Holding(id)(d)
    ensures IsGlobal(d) <==> d.action !in OWN_TABLES
  {
    assert id in Related(d) <==> Touches(d, id);
  }

  /** No table passes a next DDL of an action that holds all tables, and neither the logical table nor
      any partition of it passes a DDL that touches it, however many tables are listed. */
  lemma NextDdlHoldsItsTables(resolvedTs: nat, ddls: seq<DdlEvent>, redoOn: bool, b: Barrier, d: DdlEvent)
    requires BarrierOf(resolvedTs, ddls, redoOn, b) && d in ddls
    ensures d.action !in OWN_TABLES ==> forall id: TableId :: Effective(b, id) <= d.commitTs
    ensures Effective(b, Touched(d).id) <= d.commitTs
    ensures forall p <- Touched(d).partitions :: Effective(b, p) <= d.commitTs
  {
    forall id: TableId | Holds(id)(d)
      ensures Effective(b, id) <= d.commitTs
    {
      HoldsIs(d, id);
      BarrierHoldsEveryTable(resolvedTs, ddls, redoOn, b, d, id);
    }
    assert Holds(Touched(d).id)(d);
    assert forall p <- Touched(d).partitions :: Holds(p)(d);
    assert d.action !in OWN_TABLES ==> forall id: TableId :: Holds(id)(d);
  }

  /** With nothing cut a table stands at the least of the resolved ts and the DDLs that hold all tables or
      touch it: another DDL does not hold it. */
  lemma OthersDoNotHold(resolvedTs: nat, ddls: seq<DdlEvent>, redoOn: bool, b: Barrier, id: TableId)
    requires BarrierOf(resolvedTs, ddls, redoOn, b) && |b.tables| < 256
    ensures Least(Effective(b, id), Some(resolvedTs), ddls, Holds(id))
  {
    UncutBarrierIsExact(resolvedTs, ddls, redoOn, b, id);
    forall d <- ddls
      ensures Holds(id)(d) == Holding(id)(d)
    {
      HoldsIs(d, id);
    }
  }

  /** At most 256 tables are listed. */
  lemma ListIsShort(resolvedTs: nat, ddls: seq<DdlEvent>, redoOn: bool, b: Barrier)
    requires BarrierOf(resolvedTs, ddls, redoOn, b)
    ensures |b.tables| <= 256
  {
    var g, full :| Least(g, Some(resolvedTs), ddls, IsGlobal) && IsCut(g, full, ddls, b);
  }

  /** The redo bound is the least of the resolved ts and, if redo is on, the DDLs that make a table. */
  lemma RedoWaitsForNewTables(resolvedTs: nat, ddls: seq<DdlEvent>, redoOn: bool, b: Barrier)
    requires BarrierOf(resolvedTs, ddls, redoOn, b)
    ensures redoOn ==> Least(b.redoTs, Some(resolvedTs), ddls, MakesTable())
    ensures !redoOn ==> b.redoTs == resolvedTs
  {
    if redoOn {
      forall d <- ddls
        ensures MakesTable()(d) == RedoHolding(redoOn)(d)
      {
        assert d.action in MAKE_TABLES <==> IsRedoBarrier(d);
      }
    }
  }

  /** Another barrier of the changefeed lowers every table's bound to at most itself, and nothing else. */
  lemma LoweredBarrierHolds(b: Barrier, ts: nat, id: TableId)
    ensures var b' := LowerBarrier(b, ts);
            && Effective(b', id) == (if ts < Effective(b, id) then ts else Effective(b, id))
            && b'.minTableTs == (if ts < b.minTableTs then ts else b.minTableTs)
            && b'.redoTs == b.redoTs && b'.tables == b.tables
  {
  }
}
