/** DDL events as the owner sees them, and the classification of their action types. */
module DdlEvents {
  import opened Prelude

  type TableId = nat
  type TableName = string

  datatype ActionType =
    // Actions that block only the tables they touch.
    | DropTable | AddColumn | DropColumn | AddIndex | DropIndex | TruncateTable | ModifyColumn
    | SetDefaultValue | ModifyTableComment | RenameIndex | AddTablePartition | DropTablePartition
    | CreateView | ModifyTableCharsetAndCollate | TruncateTablePartition | DropView | RecoverTable
    | AddPrimaryKey | DropPrimaryKey | RebaseAutoID | AlterIndexVisibility | MultiSchemaChange
    | ReorganizePartition | AlterTTLInfo | AlterTTLRemove | AlterTablePartitioning
    | RemovePartitioning
    // Everything else is global.
    | CreateTable | CreateTables | OtherAction(code: nat)

  /** A logical table and the physical tables of its partitions, if it is partitioned. */
  datatype TableRef = TableRef(id: TableId, partitions: seq<TableId>)

  /** `id` stands for the identity of the event object.  The last three fields are the answers of
      parts outside the owner: whether the schema storage calls the table ineligible, whether the
      event filter ignores the event, and whether the primary cluster issued it. */
  datatype DdlEvent = DdlEvent(id: nat, commitTs: nat, name: TableName, table: TableRef,
                               pre: Option<TableRef>, action: ActionType,
                               ineligible: bool, ignored: bool, primary: bool)

  /** A finished DDL job and the events built from it; renaming or creating several tables yields
      several events with one commit ts. */
  datatype Job = Job(id: nat, finishedTs: nat, events: seq<DdlEvent>)

  /** Creations of ineligible tables never enter the pending lists. */
  predicate Dropped(d: DdlEvent) {
    (d.action.CreateTable? || d.action.CreateTables?) && d.ineligible
  }

  predicate ShouldSkip(d: DdlEvent, bdrMode: bool) {
    d.ignored || (bdrMode && !d.primary)
  }

  predicate IsGlobal(d: DdlEvent) {
    d.action.CreateTable? || d.action.CreateTables? || d.action.OtherAction?
  }

  predicate IsRedoBarrier(d: DdlEvent) {
    d.action in {CreateTable, TruncateTable, AddTablePartition, TruncateTablePartition,
                 RecoverTable, ReorganizePartition, AlterTablePartitioning, RemovePartitioning}
  }

  /** The physical tables an event touches, taken from the table before the change if there is one. */
  function Related(d: DdlEvent): seq<TableId> {
    var table := if d.pre.Some? then d.pre.value else d.table;
    [table.id] + table.partitions
  }

  predicate Blocks(d: DdlEvent, id: TableId) {
    !IsGlobal(d) && id in Related(d)
  }
}
