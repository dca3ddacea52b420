/** The table info: how TiCDC derives column flags and the handle index from a TiDB table, and how it
    rebuilds a table from nothing but columns with their flags and the column offsets of unique keys. */
module TableInfos {

  /** A TiDB column: the MySQL flags that matter are spelled out. */
  datatype ColumnInfo = ColumnInfo(id: int, name: string, typ: int, charset: string, collate: string,
                                   generated: bool, stored: bool,
                                   pri: bool, uni: bool, notNull: bool, multi: bool, unsigned: bool)

  datatype Index = Index(id: int, primary: bool, unique: bool, cols: seq<nat>)

  /** A TiDB table. */
  datatype Table = Table(columns: seq<ColumnInfo>, indices: seq<Index>, pkIsHandle: bool, isCommonHandle: bool)

  /** TiCDC's ColumnFlagType. */
  datatype Flag = Flag(binary: bool, handle: bool, generated: bool, primary: bool, unique: bool, multiple: bool,
                       nullable: bool, unsigned: bool)

  /** TiCDC's Column without its value. */
  datatype Column = Column(name: string, typ: int, charset: string, collation: string, flag: Flag)

  const PK_IS_HANDLE := -1
  const INELIGIBLE := -2
  const EXTRA_HANDLE_ID := -1

  datatype TableInfo = TableInfo(table: Table, handle: int, flags: map<int, Flag>, indexColumns: seq<seq<nat>>)

  predicate Visible(c: ColumnInfo) {
    !c.generated || c.stored
  }

  predicate OffsetsOk(t: Table) {
    forall j | 0 <= j < |t.indices| ::
      t.indices[j].cols != [] && forall x | 0 <= x < |t.indices[j].cols| :: t.indices[j].cols[x] < |t.columns|
  }

  // ---------------------------------------------------------------------------------------------
  // The handle
  // ---------------------------------------------------------------------------------------------

  predicate NotNullVisible(t: Table, cols: seq<nat>)
    requires forall x | 0 <= x < |cols| :: cols[x] < |t.columns|
  {
    forall x | 0 <= x < |cols| :: t.columns[cols[x]].notNull && Visible(t.columns[cols[x]])
  }

  predicate IsIndexUnique(t: Table, j: nat)
    requires OffsetsOk(t) && j < |t.indices|
  {
    t.indices[j].primary || (t.indices[j].unique && NotNullVisible(t, t.indices[j].cols))
  }

  predicate PkIsHandleColumn(t: Table, c: ColumnInfo) {
    Visible(c) && ((t.pkIsHandle && c.pri) || c.id == EXTRA_HANDLE_ID)
  }

  /** The primary key is the handle. */
  predicate PkHandle(t: Table) {
    exists o | 0 <= o < |t.columns| ::
      PkIsHandleColumn(t, t.columns[o]) || (Visible(t.columns[o]) && t.isCommonHandle)
  }

  /** Index `i` is preferred to `j`: fewer columns, then the smaller ID. */
  predicate Prefers(t: Table, i: nat, j: nat)
    requires i < |t.indices| && j < |t.indices|
  {
    || |t.indices[i].cols| < |t.indices[j].cols|
    || (|t.indices[i].cols| == |t.indices[j].cols| && t.indices[i].id <= t.indices[j].id)
  }

  /** Index `i` is chosen among the first `n`: the first primary one, or the preferred unique one. */
  predicate Chosen(t: Table, n: nat, i: nat)
    requires OffsetsOk(t) && n <= |t.indices|
  {
    && i < n && IsIndexUnique(t, i)
    && if t.indices[i].primary then forall j | 0 <= j < i :: !t.indices[j].primary
       else forall j | 0 <= j < n :: !t.indices[j].primary && (IsIndexUnique(t, j) ==> Prefers(t, i, j))
  }

  /** What the handle index ID must be. */
  predicate IsHandle(t: Table, h: int)
    requires OffsetsOk(t)
  {
    if PkHandle(t) then h == PK_IS_HANDLE
    else
      || (exists i: nat | i < |t.indices| :: Chosen(t, |t.indices|, i) && h == t.indices[i].id)
      || (h == INELIGIBLE && forall j: nat | j < |t.indices| :: !IsIndexUnique(t, j))
  }

  method FindHandleIndex(t: Table, pk: bool) returns (h: int)
    requires OffsetsOk(t) && pk == PkHandle(t)
    ensures IsHandle(t, h)
  {
    if pk {
      return PK_IS_HANDLE;
    }
    var offset := -1;
    for i := 0 to |t.indices|
      invariant -1 <= offset < i
      invariant offset == -1 ==> forall j: nat | j < i :: !IsIndexUnique(t, j)
      invariant offset >= 0 ==> Chosen(t, i, offset)
      invariant forall j | 0 <= j < i :: !t.indices[j].primary
    {
      if !IsIndexUnique(t, i) {
        continue;
      }
      if t.indices[i].primary {
        assert Chosen(t, |t.indices|, i);
        return t.indices[i].id;
      }
      if offset < 0 || !Prefers(t, offset, i) {
        offset := i;
      }
    }
    return if offset >= 0 then t.indices[offset].id else INELIGIBLE;
  }

  /** Every column is not null and not virtual. */
  predicate Solid(t: Table, cols: seq<nat>) {
    forall o <- cols :: o < |t.columns| ==> t.columns[o].notNull && !(t.columns[o].generated && !t.columns[o].stored)
  }

  /** The handle, said on columns and indices: the primary key if a visible column makes it the row ID or the
      table is clustered; else the first primary index; else, of the unique indices on columns that are
      neither nullable nor virtual, one with the fewest columns and then the smallest ID; else none. */
  lemma HandleMeans(t: Table, h: int)
    requires OffsetsOk(t) && IsHandle(t, h) && forall j | 0 <= j < |t.indices| :: t.indices[j].id >= 0
    ensures h == PK_IS_HANDLE <==>
            exists o | 0 <= o < |t.columns| ::
              && !(t.columns[o].generated && !t.columns[o].stored)
              && (t.columns[o].id == EXTRA_HANDLE_ID || t.isCommonHandle || (t.pkIsHandle && t.columns[o].pri))
    ensures h == INELIGIBLE ==>
              forall j | 0 <= j < |t.indices| ::
                !t.indices[j].primary && !(t.indices[j].unique && Solid(t, t.indices[j].cols))
    ensures h >= 0 ==>
              exists i | 0 <= i < |t.indices| && t.indices[i].id == h ::
                if t.indices[i].primary then forall j | 0 <= j < i :: !t.indices[j].primary
                else
                  && t.indices[i].unique && Solid(t, t.indices[i].cols)
                  && forall j | 0 <= j < |t.indices| ::
                       && !t.indices[j].primary
                       && (t.indices[j].unique && Solid(t, t.indices[j].cols) ==>
                             || |t.indices[i].cols| < |t.indices[j].cols|
                             || (|t.indices[i].cols| == |t.indices[j].cols| && t.indices[i].id <= t.indices[j].id))
    ensures h >= INELIGIBLE
  {
    forall j | 0 <= j < |t.indices|
      ensures IsIndexUnique(t, j) <==> t.indices[j].primary || (t.indices[j].unique && Solid(t, t.indices[j].cols))
    {
      SolidIff(t, t.indices[j].cols);
    }
  }

  lemma SolidIff(t: Table, cols: seq<nat>)
    requires forall x | 0 <= x < |cols| :: cols[x] < |t.columns|
    ensures Solid(t, cols) <==> NotNullVisible(t, cols)
  {
    if Solid(t, cols) {
      forall x | 0 <= x < |cols|
        ensures t.columns[cols[x]].notNull && Visible(t.columns[cols[x]])
      {
        assert cols[x] in cols;
      }
    }
  }

  // ---------------------------------------------------------------------------------------------
  // The flags
  // ---------------------------------------------------------------------------------------------

  function BaseFlag(c: ColumnInfo, h: int): Flag {
    Flag(c.charset == "binary", c.pri && h == PK_IS_HANDLE, c.generated, c.pri, c.uni, c.multi, !c.notNull, c.unsigned)
  }

  /** What an index adds to each of its columns. */
  function AddIndex(f: Flag, idx: Index, h: int): Flag {
    f.(primary := f.primary || idx.primary,
       unique := f.unique || (!idx.primary && idx.unique),
       multiple := f.multiple || |idx.cols| > 1,
       handle := f.handle || (idx.id == h && h >= 0))
  }

  /** The flag of column `o` after the first `n` indices. */
  function Accumulated(t: Table, h: int, o: nat, n: nat): Flag
    requires o < |t.columns| && n <= |t.indices|
  {
    if n == 0 then BaseFlag(t.columns[o], h)
    else
      var f := Accumulated(t, h, o, n - 1);
      if o in t.indices[n - 1].cols then AddIndex(f, t.indices[n - 1], h) else f
  }

  /** The column belongs to an index of this kind, among the first `n`. */
  predicate InPrimary(t: Table, o: nat, n: nat)
    requires n <= |t.indices|
  {
    exists j | 0 <= j < n :: t.indices[j].primary && o in t.indices[j].cols
  }

  predicate InUnique(t: Table, o: nat, n: nat)
    requires n <= |t.indices|
  {
    exists j | 0 <= j < n :: !t.indices[j].primary && t.indices[j].unique && o in t.indices[j].cols
  }

  predicate InMultiple(t: Table, o: nat, n: nat)
    requires n <= |t.indices|
  {
    exists j | 0 <= j < n :: |t.indices[j].cols| > 1 && o in t.indices[j].cols
  }

  predicate InHandle(t: Table, h: int, o: nat, n: nat)
    requires n <= |t.indices|
  {
    h >= 0 && exists j | 0 <= j < n :: t.indices[j].id == h && o in t.indices[j].cols
  }

  /** The flag of a column, said outright. */
  function FlagOf(t: Table, h: int, o: nat): Flag
    requires o < |t.columns|
  {
    var c, n := t.columns[o], |t.indices|;
    Flag(c.charset == "binary", (c.pri && h == PK_IS_HANDLE) || InHandle(t, h, o, n), c.generated,
         c.pri || InPrimary(t, o, n), c.uni || InUnique(t, o, n), c.multi || InMultiple(t, o, n), !c.notNull, c.unsigned)
  }

  /** The column is in one of the indices selected. */
  predicate InSome(t: Table, o: nat, select: Index -> bool) {
    exists idx <- t.indices :: select(idx) && o in idx.cols
  }

  /** Each flag, said on the column and the indices it is in. */
  lemma FlagMeans(t: Table, h: int, o: nat)
    requires o < |t.columns|
    ensures var c, f := t.columns[o], FlagOf(t, h, o);
            && (f.primary <==> c.pri || InSome(t, o, (idx: Index) => idx.primary))
            && (f.unique <==> c.uni || InSome(t, o, (idx: Index) => idx.unique && !idx.primary))
            && (f.multiple <==> c.multi || InSome(t, o, (idx: Index) => |idx.cols| >= 2))
            && (f.handle <==> if h == PK_IS_HANDLE then c.pri else h >= 0 && InSome(t, o, (idx: Index) => idx.id == h))
            && (f.nullable <==> !c.notNull) && (f.unsigned <==> c.unsigned) && (f.generated <==> c.generated)
            && (f.binary <==> c.charset == "binary")
  {
    InSomeIff(t, o, (idx: Index) => idx.primary);
    InSomeIff(t, o, (idx: Index) => idx.unique && !idx.primary);
    InSomeIff(t, o, (idx: Index) => |idx.cols| >= 2);
    InSomeIff(t, o, (idx: Index) => idx.id == h);
  }

  lemma InSomeIff(t: Table, o: nat, select: Index -> bool)
    ensures InSome(t, o, select) <==> exists j | 0 <= j < |t.indices| :: select(t.indices[j]) && o in t.indices[j].cols
  {
    if InSome(t, o, select) {
      var idx :| idx in t.indices && select(idx) && o in idx.cols;
      var j :| 0 <= j < |t.indices| && t.indices[j] == idx;
    }
  }

  lemma {:induction false} AccumulatedIs(t: Table, h: int, o: nat, n: nat)
    requires o < |t.columns| && n <= |t.indices|
    ensures var c := t.columns[o];
            Accumulated(t, h, o, n) ==
            Flag(c.charset == "binary", (c.pri && h == PK_IS_HANDLE) || InHandle(t, h, o, n), c.generated,
                 c.pri || InPrimary(t, o, n), c.uni || InUnique(t, o, n), c.multi || InMultiple(t, o, n), !c.notNull, c.unsigned)
    decreases n
  {
    if n > 0 {
      AccumulatedIs(t, h, o, n - 1);
    }
  }

  predicate DistinctIds(t: Table) {
    forall a, b | 0 <= a < b < |t.columns| :: t.columns[a].id != t.columns[b].id
  }

  /** The map holds, for every column, the given flag. */
  predicate HasFlags(t: Table, flags: map<int, Flag>, n: nat, h: int, k: nat)
    requires n <= |t.columns| && k <= |t.indices|
  {
    && (forall o | 0 <= o < n :: t.columns[o].id in flags && flags[t.columns[o].id] == Accumulated(t, h, o, k))
    && forall id <- flags :: exists o | 0 <= o < n :: t.columns[o].id == id
  }

  lemma ColumnAdded(t: Table, flags: map<int, Flag>, h: int, i: nat)
    requires DistinctIds(t) && i < |t.columns| && HasFlags(t, flags, i, h, 0)
    ensures HasFlags(t, flags[t.columns[i].id := BaseFlag(t.columns[i], h)], i + 1, h, 0)
  {
    var id := t.columns[i].id;
    var flags' := flags[id := BaseFlag(t.columns[i], h)];
    forall x <- flags'
      ensures exists o | 0 <= o < i + 1 :: t.columns[o].id == x
    {
      if x == id {
        assert t.columns[i].id == x;
      } else {
        assert x in flags;
      }
    }
  }

  /** `r` is `flags` with the index added to the columns it names. */
  lemma IndexAdded(t: Table, flags: map<int, Flag>, r: map<int, Flag>, h: int, k: nat)
    requires k < |t.indices| && HasFlags(t, flags, |t.columns|, h, k) && r.Keys == flags.Keys
    requires var idx := t.indices[k];
             forall o | 0 <= o < |t.columns| ::
               r[t.columns[o].id] == if o in idx.cols then AddIndex(flags[t.columns[o].id], idx, h) else flags[t.columns[o].id]
    ensures HasFlags(t, r, |t.columns|, h, k + 1)
  {
    forall x <- r
      ensures exists o | 0 <= o < |t.columns| :: t.columns[o].id == x
    {
      assert x in flags;
    }
  }

  lemma FlagsAreFlagOf(t: Table, flags: map<int, Flag>, h: int)
    requires HasFlags(t, flags, |t.columns|, h, |t.indices|)
    ensures forall o | 0 <= o < |t.columns| :: t.columns[o].id in flags && flags[t.columns[o].id] == FlagOf(t, h, o)
  {
    forall o | 0 <= o < |t.columns|
      ensures flags[t.columns[o].id] == FlagOf(t, h, o)
    {
      AccumulatedIs(t, h, o, |t.indices|);
    }
  }

  method AddIndexFlags(t: Table, h: int, flags: map<int, Flag>, k: nat) returns (r: map<int, Flag>)
    requires OffsetsOk(t) && DistinctIds(t) && k < |t.indices| && HasFlags(t, flags, |t.columns|, h, k)
    ensures HasFlags(t, r, |t.columns|, h, k + 1)
  {
    var idx := t.indices[k];
    r := flags;
    for x := 0 to |idx.cols|
      invariant r.Keys == flags.Keys
      invariant forall o | 0 <= o < |t.columns| ::
                  r[t.columns[o].id] == if o in idx.cols[..x] then AddIndex(flags[t.columns[o].id], idx, h) else flags[t.columns[o].id]
    {
      var id := t.columns[idx.cols[x]].id;
      assert idx.cols[..x + 1] == idx.cols[..x] + [idx.cols[x]];
      r := r[id := AddIndex(r[id], idx, h)];
    }
    assert idx.cols[..|idx.cols|] == idx.cols;
    IndexAdded(t, flags, r, h, k);
  }

  method InitColumnsFlag(t: Table, h: int) returns (flags: map<int, Flag>)
    requires OffsetsOk(t) && DistinctIds(t)
    ensures forall o | 0 <= o < |t.columns| :: t.columns[o].id in flags && flags[t.columns[o].id] == FlagOf(t, h, o)
  {
    flags := map[];
    for i := 0 to |t.columns|
      invariant HasFlags(t, flags, i, h, 0)
    {
      ColumnAdded(t, flags, h, i);
      flags := flags[t.columns[i].id := BaseFlag(t.columns[i], h)];
    }
    for k := 0 to |t.indices|
      invariant HasFlags(t, flags, |t.columns|, h, k)
    {
      flags := AddIndexFlags(t, h, flags, k);
    }
    FlagsAreFlagOf(t, flags, h);
  }

  // ---------------------------------------------------------------------------------------------
  // The key columns, and the whole table info
  // ---------------------------------------------------------------------------------------------

  /** The offset of a column in row changed events, where virtual columns are left out. */
  function RowOffset(t: Table, o: nat): nat
    requires o <= |t.columns|
  {
    if o == 0 then 0 else RowOffset(t, o - 1) + if Visible(t.columns[o - 1]) then 1 else 0
  }

  function PkEntries(t: Table, n: nat): seq<seq<nat>>
    requires n <= |t.columns|
  {
    if n == 0 then []
    else PkEntries(t, n - 1) + if PkIsHandleColumn(t, t.columns[n - 1]) then [[RowOffset(t, n - 1)]] else []
  }

  function VisibleOffsets(t: Table, cols: seq<nat>): seq<nat>
    requires forall x | 0 <= x < |cols| :: cols[x] < |t.columns|
  {
    if cols == [] then []
    else
      var o := cols[|cols| - 1];
      VisibleOffsets(t, cols[..|cols| - 1]) + if Visible(t.columns[o]) then [RowOffset(t, o)] else []
  }

  predicate IsKey(idx: Index) {
    idx.primary || idx.unique
  }

  function IndexEntries(t: Table, n: nat): seq<seq<nat>>
    requires OffsetsOk(t) && n <= |t.indices|
  {
    if n == 0 then []
    else
      var idx := t.indices[n - 1];
      var offsets := VisibleOffsets(t, idx.cols);
      IndexEntries(t, n - 1) + if IsKey(idx) && offsets != [] then [offsets] else []
  }

  function IndexColumns(t: Table): seq<seq<nat>>
    requires OffsetsOk(t)
  {
    PkEntries(t, |t.columns|) + IndexEntries(t, |t.indices|)
  }

  predicate IsTableInfo(t: Table, ti: TableInfo)
    requires OffsetsOk(t)
  {
    && ti.table == t && IsHandle(t, ti.handle) && ti.indexColumns == IndexColumns(t)
    && forall o | 0 <= o < |t.columns| :: t.columns[o].id in ti.flags && ti.flags[t.columns[o].id] == FlagOf(t, ti.handle, o)
  }

  method MapVisible(t: Table, offsets: map<int, nat>, cols: seq<nat>) returns (r: seq<nat>)
    requires forall x | 0 <= x < |cols| :: cols[x] < |t.columns|
    requires OffsetsAre(t, offsets, |t.columns|)
    ensures r == VisibleOffsets(t, cols)
  {
    r := [];
    for x := 0 to |cols|
      invariant r == VisibleOffsets(t, cols[..x])
    {
      assert cols[..x + 1][..x] == cols[..x];
      if Visible(t.columns[cols[x]]) {
        r := r + [offsets[t.columns[cols[x]].id]];
      }
    }
    assert cols[..|cols|] == cols;
  }

  predicate OffsetsAre(t: Table, offsets: map<int, nat>, n: nat)
    requires n <= |t.columns|
  {
    forall o | 0 <= o < n && Visible(t.columns[o]) ::
      t.columns[o].id in offsets && offsets[t.columns[o].id] == RowOffset(t, o)
  }

  /** The loop over the columns. */
  method WrapColumns(t: Table) returns (offsets: map<int, nat>, pk: bool, entries: seq<seq<nat>>)
    requires DistinctIds(t)
    ensures OffsetsAre(t, offsets, |t.columns|) && pk == PkHandle(t) && entries == PkEntries(t, |t.columns|)
  {
    offsets, pk, entries := map[], false, [];
    var row := 0;
    for i := 0 to |t.columns|
      invariant row == RowOffset(t, i) && entries == PkEntries(t, i) && OffsetsAre(t, offsets, i)
      invariant pk == exists o | 0 <= o < i ::
                        PkIsHandleColumn(t, t.columns[o]) || (Visible(t.columns[o]) && t.isCommonHandle)
    {
      var col := t.columns[i];
      if Visible(col) {
        offsets := offsets[col.id := row];
        if PkIsHandleColumn(t, col) {
          pk := true;
          entries := entries + [[row]];
        } else if t.isCommonHandle {
          pk := true;
        }
        row := row + 1;
      }
    }
  }

  method WrapTableInfo(t: Table) returns (ti: TableInfo)
    requires OffsetsOk(t) && DistinctIds(t)
    requires t.isCommonHandle ==> exists j | 0 <= j < |t.indices| :: t.indices[j].primary
    ensures IsTableInfo(t, ti)
  {
    var offsets, pk, entries := WrapColumns(t);
    ghost var pks := entries;
    for j := 0 to |t.indices|
      invariant entries == pks + IndexEntries(t, j)
    {
      if IsKey(t.indices[j]) {
        var cols := MapVisible(t, offsets, t.indices[j].cols);
        if |cols| > 0 {
          entries := entries + [cols];
        }
      }
    }
    var h := FindHandleIndex(t, pk);
    var flags := InitColumnsFlag(t, h);
    ti := TableInfo(t, h, flags, entries);
  }

  // ---------------------------------------------------------------------------------------------
  // Rebuilding a table
  // ---------------------------------------------------------------------------------------------

  datatype Result<T> = Ok(value: T) | Panic

  function BuiltColumn(c: Column, id: int): ColumnInfo {
    ColumnInfo(id, c.name, c.typ,
               if c.charset != "" then c.charset else if c.flag.binary then "binary" else "utf8mb4",
               if c.collation != "" then c.collation else "utf8mb4_bin",
               c.flag.generated, c.flag.generated,
               c.flag.primary, c.flag.unique, !c.flag.nullable, c.flag.multiple, c.flag.unsigned)
  }

  predicate HasPrimary(columns: seq<Column>, n: nat)
    requires n <= |columns|
  {
    exists i | 0 <= i < n :: columns[i].flag.primary
  }

  predicate EntriesOk(columns: seq<Column>, entries: seq<seq<nat>>) {
    forall i | 0 <= i < |entries| :: entries[i] != [] && forall x | 0 <= x < |entries[i]| :: entries[i][x] < |columns|
  }

  predicate AllPrimary(columns: seq<Column>, cols: seq<nat>)
    requires forall x | 0 <= x < |cols| :: cols[x] < |columns|
  {
    forall x | 0 <= x < |cols| :: columns[cols[x]].flag.primary
  }

  predicate AllHandle(columns: seq<Column>, cols: seq<nat>)
    requires forall x | 0 <= x < |cols| :: cols[x] < |columns|
  {
    forall x | 0 <= x < |cols| :: columns[cols[x]].flag.handle
  }

  /** The entry gets the smallest index ID: it is the handle and there is no primary key. */
  predicate IsHandleEntry(columns: seq<Column>, entries: seq<seq<nat>>, i: nat)
    requires EntriesOk(columns, entries) && i < |entries|
  {
    AllHandle(columns, entries[i]) && !HasPrimary(columns, |columns|)
  }

  function NextMockId(columns: seq<Column>, entries: seq<seq<nat>>, n: nat): nat
    requires EntriesOk(columns, entries) && n <= |entries|
    ensures NextMockId(columns, entries, n) >= 2
  {
    if n == 0 then 2
    else NextMockId(columns, entries, n - 1) + if IsHandleEntry(columns, entries, n - 1) then 0 else 1
  }

  function BuiltIndex(columns: seq<Column>, entries: seq<seq<nat>>, i: nat): Index
    requires EntriesOk(columns, entries) && i < |entries|
  {
    var first := columns[entries[i][0]].flag;
    Index(if IsHandleEntry(columns, entries, i) then 1 else NextMockId(columns, entries, i),
          AllPrimary(columns, entries[i]), first.primary || first.unique, entries[i])
  }

  predicate BadColumn(c: Column) {
    || (c.flag.primary && !c.flag.handle)
    || (c.flag.handle && !c.flag.primary && !c.flag.unique)
  }

  predicate TwoHandles(columns: seq<Column>, entries: seq<seq<nat>>, n: nat)
    requires EntriesOk(columns, entries) && n <= |entries|
  {
    exists i, j | 0 <= i < j < n :: IsHandleEntry(columns, entries, i) && IsHandleEntry(columns, entries, j)
  }

  predicate HandleSeen(columns: seq<Column>, entries: seq<seq<nat>>, n: nat)
    requires EntriesOk(columns, entries) && n <= |entries|
  {
    exists i | 0 <= i < n :: IsHandleEntry(columns, entries, i)
  }

  lemma TwoHandlesStep(columns: seq<Column>, entries: seq<seq<nat>>, n: nat)
    requires EntriesOk(columns, entries) && n < |entries|
    ensures HandleSeen(columns, entries, n + 1) <==> HandleSeen(columns, entries, n) || IsHandleEntry(columns, entries, n)
    ensures TwoHandles(columns, entries, n + 1) <==>
            TwoHandles(columns, entries, n) || (HandleSeen(columns, entries, n) && IsHandleEntry(columns, entries, n))
    ensures TwoHandles(columns, entries, n + 1) ==> TwoHandles(columns, entries, |entries|)
  {
  }

  predicate HasPrimaryEntry(columns: seq<Column>, entries: seq<seq<nat>>, n: nat)
    requires EntriesOk(columns, entries) && n <= |entries|
  {
    exists i | 0 <= i < n :: AllPrimary(columns, entries[i])
  }

  predicate Panics(columns: seq<Column>, entries: seq<seq<nat>>)
    requires EntriesOk(columns, entries)
  {
    || (exists i | 0 <= i < |columns| :: BadColumn(columns[i]))
    || TwoHandles(columns, entries, |entries|)
    || HasPrimary(columns, |columns|) != HasPrimaryEntry(columns, entries, |entries|)
  }

  /** The table that BuildTiDBTableInfoImpl makes, with the incremental column ID allocator. */
  predicate IsBuilt(columns: seq<Column>, entries: seq<seq<nat>>, t: Table)
    requires EntriesOk(columns, entries)
  {
    && |t.columns| == |columns| && |t.indices| == |entries|
    && (forall i | 0 <= i < |columns| :: t.columns[i] == BuiltColumn(columns[i], 100 + i))
    && (forall i | 0 <= i < |entries| :: t.indices[i] == BuiltIndex(columns, entries, i))
    && !t.pkIsHandle && t.isCommonHandle == HasPrimary(columns, |columns|)
  }

  /** The first loop: the columns, or a panic at a bad one. */
  method BuildColumns(columns: seq<Column>) returns (ok: bool, cols: seq<ColumnInfo>, hasPrimaryColumn: bool)
    ensures ok == forall i | 0 <= i < |columns| :: !BadColumn(columns[i])
    ensures ok ==> |cols| == |columns| && forall i | 0 <= i < |columns| :: cols[i] == BuiltColumn(columns[i], 100 + i)
    ensures ok ==> hasPrimaryColumn == HasPrimary(columns, |columns|)
  {
    cols, hasPrimaryColumn := [], false;
    var nextColId := 100;
    for i := 0 to |columns|
      invariant |cols| == i && nextColId == 100 + i
      invariant forall o | 0 <= o < i :: cols[o] == BuiltColumn(columns[o], 100 + o) && !BadColumn(columns[o])
      invariant hasPrimaryColumn == HasPrimary(columns, i)
    {
      if columns[i].flag.primary {
        hasPrimaryColumn := true;
        if !columns[i].flag.handle {
          assert BadColumn(columns[i]);
          return false, [], false;
        }
      }
      if columns[i].flag.handle && !columns[i].flag.primary && !columns[i].flag.unique {
        assert BadColumn(columns[i]);
        return false, [], false;
      }
      cols := cols + [BuiltColumn(columns[i], nextColId)];
      nextColId := nextColId + 1;
    }
    ok := true;
  }

  method ScanEntry(columns: seq<Column>, cols: seq<nat>) returns (isPrimary: bool, isHandle: bool)
    requires forall x | 0 <= x < |cols| :: cols[x] < |columns|
    ensures isPrimary == AllPrimary(columns, cols) && isHandle == AllHandle(columns, cols)
  {
    isPrimary, isHandle := true, true;
    for x := 0 to |cols|
      invariant isPrimary == forall y | 0 <= y < x :: columns[cols[y]].flag.primary
      invariant isHandle == forall y | 0 <= y < x :: columns[cols[y]].flag.handle
    {
      isPrimary := isPrimary && columns[cols[x]].flag.primary;
      isHandle := isHandle && columns[cols[x]].flag.handle;
    }
  }

  /** The second loop: the indices, or a panic at a second handle. */
  method BuildIndices(columns: seq<Column>, entries: seq<seq<nat>>, hasPrimaryColumn: bool)
    returns (ok: bool, indices: seq<Index>, hasPrimaryIndex: bool)
    requires EntriesOk(columns, entries) && hasPrimaryColumn == HasPrimary(columns, |columns|)
    ensures ok == !TwoHandles(columns, entries, |entries|)
    ensures ok ==> |indices| == |entries| && forall i | 0 <= i < |entries| :: indices[i] == BuiltIndex(columns, entries, i)
    ensures ok ==> hasPrimaryIndex == HasPrimaryEntry(columns, entries, |entries|)
  {
    indices, hasPrimaryIndex := [], false;
    var hasHandle, nextId := false, 2;
    for i := 0 to |entries|
      invariant |indices| == i && nextId == NextMockId(columns, entries, i)
      invariant forall k | 0 <= k < i :: indices[k] == BuiltIndex(columns, entries, k)
      invariant hasPrimaryIndex == HasPrimaryEntry(columns, entries, i)
      invariant !hasPrimaryColumn ==> hasHandle == HandleSeen(columns, entries, i)
      invariant !TwoHandles(columns, entries, i)
    {
      var isPrimary, isHandle := ScanEntry(columns, entries[i]);
      TwoHandlesStep(columns, entries, i);
      hasPrimaryIndex := hasPrimaryIndex || isPrimary;
      if isHandle {
        if hasHandle && !hasPrimaryColumn {
          return false, [], false;
        }
        hasHandle := true;
      }
      var first := columns[entries[i][0]].flag;
      var id := nextId;
      if isHandle && !hasPrimaryColumn {
        id := 1;
      } else {
        nextId := nextId + 1;
      }
      indices := indices + [Index(id, isPrimary, first.primary || first.unique, entries[i])];
    }
    ok := true;
  }

  method BuildTableInfo(columns: seq<Column>, entries: seq<seq<nat>>) returns (r: Result<Table>)
    requires EntriesOk(columns, entries)
    ensures r.Panic? <==> Panics(columns, entries)
    ensures r.Ok? ==> IsBuilt(columns, entries, r.value)
  {
    var ok, cols, hasPrimaryColumn := BuildColumns(columns);
    if !ok {
      return Panic;
    }
    var ok', indices, hasPrimaryIndex := BuildIndices(columns, entries, hasPrimaryColumn);
    if !ok' || hasPrimaryColumn != hasPrimaryIndex {
      return Panic;
    }
    return Ok(Table(cols, indices, false, hasPrimaryColumn));
  }
}
