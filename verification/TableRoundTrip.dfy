/** The round trip of a TiDB table through the columns of its row changed events: what of a table comes
    back when it is rebuilt from the visible columns and the offsets of its keys. */
module TableRoundTrip {
  import opened TableInfos
  import opened TableRebuild

  /** What TiDB guarantees of its tables. */
  predicate WellFormed(t: Table) {
    && OffsetsOk(t) && DistinctIds(t)
    && (forall o | 0 <= o < |t.columns| :: t.columns[o].id != EXTRA_HANDLE_ID)
    && (forall j, k | 0 <= j < k < |t.indices| :: t.indices[j].id != t.indices[k].id)
    && (forall j | 0 <= j < |t.indices| :: t.indices[j].id >= 0)
    && PrimaryOk(t)
  }

  /** There is one primary key, an index of the table or a single integer column; its columns are marked
      and not virtual. */
  predicate PrimaryOk(t: Table) {
    && (forall j, k | 0 <= j < k < |t.indices| :: !(t.indices[j].primary && t.indices[k].primary))
    && (forall j | 0 <= j < |t.indices| && t.indices[j].primary :: !t.pkIsHandle && AllPri(t, t.indices[j].cols))
    && (forall o | 0 <= o < |t.columns| && t.columns[o].pri ::
          Visible(t.columns[o]) && (t.pkIsHandle || InPrimary(t, o, |t.indices|)))
    && (t.pkIsHandle ==> HasPk(t))
    && (t.isCommonHandle ==> exists j | 0 <= j < |t.indices| :: t.indices[j].primary)
  }

  predicate AllPri(t: Table, cols: seq<nat>) {
    forall x | 0 <= x < |cols| :: cols[x] < |t.columns| ==> t.columns[cols[x]].pri
  }

  predicate HasPk(t: Table) {
    exists o | 0 <= o < |t.columns| :: t.columns[o].pri
  }

  // ---------------------------------------------------------------------------------------------
  // The visible columns
  // ---------------------------------------------------------------------------------------------

  /** The offsets of the visible columns among the first `n`: position in an event to offset in the table. */
  function Rows(t: Table, n: nat): seq<nat>
    requires n <= |t.columns|
  {
    if n == 0 then [] else Rows(t, n - 1) + if Visible(t.columns[n - 1]) then [n - 1] else []
  }

  lemma {:induction false} RowsLength(t: Table, n: nat)
    requires n <= |t.columns|
    ensures |Rows(t, n)| == RowOffset(t, n)
  {
    if n > 0 {
      RowsLength(t, n - 1);
    }
  }

  /** `Rows` and `RowOffset` are inverse to each other. */
  lemma {:induction false} OffsetOfRow(t: Table, n: nat, p: nat)
    requires n <= |t.columns| && p < |Rows(t, n)|
    ensures Rows(t, n)[p] < n && Visible(t.columns[Rows(t, n)[p]]) && RowOffset(t, Rows(t, n)[p]) == p
    decreases n
  {
    RowsLength(t, n - 1);
    if p < |Rows(t, n - 1)| {
      OffsetOfRow(t, n - 1, p);
    }
  }

  lemma {:induction false} RowOfOffset(t: Table, n: nat, o: nat)
    requires o < n <= |t.columns| && Visible(t.columns[o])
    ensures RowOffset(t, o) < |Rows(t, n)| && Rows(t, n)[RowOffset(t, o)] == o
    decreases n
  {
    RowsLength(t, n - 1);
    if o < n - 1 {
      RowOfOffset(t, n - 1, o);
    }
  }

  function ColumnOf(t: Table, h: int, o: nat): Column
    requires o < |t.columns|
  {
    var c := t.columns[o];
    Column(c.name, c.typ, c.charset, c.collate, FlagOf(t, h, o))
  }

  /** The columns of row changed events: the visible ones, in order. */
  predicate AreColumns(t: Table, h: int, cols: seq<Column>) {
    var rows := Rows(t, |t.columns|);
    |cols| == |rows| && forall p | 0 <= p < |cols| :: rows[p] < |t.columns| && cols[p] == ColumnOf(t, h, rows[p])
  }

  /** The offset of the column at a position of an event. */
  function At(t: Table, p: nat): nat {
    var rows := Rows(t, |t.columns|);
    if p < |rows| then rows[p] else 0
  }

  lemma ColumnAt(t: Table, h: int, cols: seq<Column>, p: nat)
    requires AreColumns(t, h, cols) && p < |cols|
    ensures At(t, p) < |t.columns| && Visible(t.columns[At(t, p)]) && cols[p] == ColumnOf(t, h, At(t, p))
    ensures RowOffset(t, At(t, p)) == p
  {
    OffsetOfRow(t, |t.columns|, p);
  }

  lemma ColumnOfOffset(t: Table, h: int, cols: seq<Column>, o: nat)
    requires AreColumns(t, h, cols) && o < |t.columns| && Visible(t.columns[o])
    ensures RowOffset(t, o) < |cols| && At(t, RowOffset(t, o)) == o && cols[RowOffset(t, o)] == ColumnOf(t, h, o)
  {
    RowOfOffset(t, |t.columns|, o);
  }

  // The visible part of an index.

  /** `part` holds the positions of the visible columns among `cols`. */
  predicate PartOf(t: Table, cols: seq<nat>, part: seq<nat>, n: nat) {
    && |part| <= |cols|
    && (forall x | 0 <= x < |part| :: part[x] < n && At(t, part[x]) in cols)
    && (forall x | 0 <= x < |cols| :: cols[x] < |t.columns| && (Visible(t.columns[cols[x]]) ==> RowOffset(t, cols[x]) in part))
  }

  lemma PartOfHidden(t: Table, cols: seq<nat>, part: seq<nat>, n: nat, o: nat)
    requires PartOf(t, cols, part, n) && o < |t.columns| && !Visible(t.columns[o])
    ensures PartOf(t, cols + [o], part, n)
  {
  }

  lemma PartOfShown(t: Table, cols: seq<nat>, part: seq<nat>, n: nat, o: nat)
    requires PartOf(t, cols, part, n) && o < |t.columns| && RowOffset(t, o) < n && At(t, RowOffset(t, o)) == o
    ensures PartOf(t, cols + [o], part + [RowOffset(t, o)], n)
  {
  }

  lemma {:induction false} VisiblePart(t: Table, h: int, columns: seq<Column>, cols: seq<nat>)
    requires AreColumns(t, h, columns) && InRange(cols, |t.columns|)
    ensures PartOf(t, cols, VisibleOffsets(t, cols), |columns|)
    ensures (forall x | 0 <= x < |cols| :: Visible(t.columns[cols[x]])) ==> |VisibleOffsets(t, cols)| == |cols|
  {
    if cols != [] {
      var init, o := cols[..|cols| - 1], cols[|cols| - 1];
      VisiblePart(t, h, columns, init);
      assert init + [o] == cols;
      if Visible(t.columns[o]) {
        ColumnOfOffset(t, h, columns, o);
        PartOfShown(t, init, VisibleOffsets(t, init), |columns|, o);
      } else {
        PartOfHidden(t, init, VisibleOffsets(t, init), |columns|, o);
      }
    }
  }

  function Part(t: Table, j: nat): seq<nat>
    requires OffsetsOk(t) && j < |t.indices|
  {
    VisibleOffsets(t, t.indices[j].cols)
  }

  lemma PartMembers(t: Table, h: int, cols: seq<Column>, j: nat, p: nat)
    requires OffsetsOk(t) && AreColumns(t, h, cols) && j < |t.indices| && p < |cols|
    ensures InRange(Part(t, j), |cols|) && |Part(t, j)| <= |t.indices[j].cols|
    ensures p in Part(t, j) <==> At(t, p) in t.indices[j].cols
  {
    VisiblePart(t, h, cols, t.indices[j].cols);
    ColumnAt(t, h, cols, p);
    if p in Part(t, j) {
      var x :| 0 <= x < |Part(t, j)| && Part(t, j)[x] == p;
    }
    if At(t, p) in t.indices[j].cols {
      var x :| 0 <= x < |t.indices[j].cols| && t.indices[j].cols[x] == At(t, p);
    }
  }

  // ---------------------------------------------------------------------------------------------
  // The entries
  // ---------------------------------------------------------------------------------------------

  predicate KeyShown(t: Table, j: nat)
    requires OffsetsOk(t) && j < |t.indices|
  {
    IsKey(t.indices[j]) && Part(t, j) != []
  }

  /** The positions of the primary and unique indices with a visible column. */
  function KeyPositions(t: Table, n: nat): (r: seq<nat>)
    requires OffsetsOk(t) && n <= |t.indices|
    ensures forall i | 0 <= i < |r| :: r[i] < n && KeyShown(t, r[i])
  {
    if n == 0 then [] else KeyPositions(t, n - 1) + if KeyShown(t, n - 1) then [n - 1] else []
  }

  /** They are in order and complete. */
  lemma {:induction false} KeyPositionsAre(t: Table, n: nat)
    requires OffsetsOk(t) && n <= |t.indices|
    ensures forall i, k | 0 <= i < k < |KeyPositions(t, n)| :: KeyPositions(t, n)[i] < KeyPositions(t, n)[k]
    ensures forall j | 0 <= j < n && KeyShown(t, j) :: j in KeyPositions(t, n)
  {
    if n > 0 {
      KeyPositionsAre(t, n - 1);
    }
  }

  predicate PartsAt(t: Table, entries: seq<seq<nat>>, keys: seq<nat>)
    requires OffsetsOk(t)
  {
    |entries| == |keys| && forall i | 0 <= i < |keys| :: keys[i] < |t.indices| && entries[i] == Part(t, keys[i])
  }

  lemma PartsAppend(t: Table, entries: seq<seq<nat>>, keys: seq<nat>, j: nat)
    requires OffsetsOk(t) && PartsAt(t, entries, keys) && j < |t.indices|
    ensures PartsAt(t, entries + [Part(t, j)], keys + [j])
  {
  }

  lemma {:induction false} IndexEntriesAre(t: Table, n: nat)
    requires OffsetsOk(t) && n <= |t.indices|
    ensures PartsAt(t, IndexEntries(t, n), KeyPositions(t, n))
  {
    if n > 0 {
      IndexEntriesAre(t, n - 1);
      if KeyShown(t, n - 1) {
        PartsAppend(t, IndexEntries(t, n - 1), KeyPositions(t, n - 1), n - 1);
      }
    }
  }

  /** The entry of a shown key. */
  lemma EntryOfKey(t: Table, j: nat) returns (i: nat)
    requires OffsetsOk(t) && j < |t.indices| && KeyShown(t, j)
    ensures i < |IndexColumns(t)| && IndexColumns(t)[i] == Part(t, j)
  {
    IndexEntriesAre(t, |t.indices|);
    KeyPositionsAre(t, |t.indices|);
    var keys := KeyPositions(t, |t.indices|);
    var k :| 0 <= k < |keys| && keys[k] == j;
    i := |PkEntries(t, |t.columns|)| + k;
  }

  /** A primary key column as an entry of its own. */
  predicate IsPkEntry(t: Table, e: seq<nat>) {
    |e| == 1 && exists o | 0 <= o < |t.columns| :: t.columns[o].pri && Visible(t.columns[o]) && e[0] == RowOffset(t, o)
  }

  lemma {:induction false} PkEntriesAre(t: Table, n: nat)
    requires WellFormed(t) && n <= |t.columns|
    ensures forall i | 0 <= i < |PkEntries(t, n)| :: IsPkEntry(t, PkEntries(t, n)[i])
    ensures t.pkIsHandle ==> forall o: nat | o < n && t.columns[o].pri :: [RowOffset(t, o)] in PkEntries(t, n)
    ensures !HasPk(t) ==> PkEntries(t, n) == []
  {
    if n > 0 {
      PkEntriesAre(t, n - 1);
    }
  }

  predicate FromKey(t: Table, e: seq<nat>)
    requires OffsetsOk(t)
  {
    IsPkEntry(t, e) || exists j | 0 <= j < |t.indices| :: KeyShown(t, j) && e == Part(t, j)
  }

  lemma EntriesAre(t: Table, i: nat)
    requires WellFormed(t) && i < |IndexColumns(t)|
    ensures FromKey(t, IndexColumns(t)[i])
  {
    var pks, rest := PkEntries(t, |t.columns|), IndexEntries(t, |t.indices|);
    PkEntriesAre(t, |t.columns|);
    IndexEntriesAre(t, |t.indices|);
    if i < |pks| {
      assert IndexColumns(t)[i] == pks[i];
    } else {
      assert IndexColumns(t)[i] == rest[i - |pks|] == Part(t, KeyPositions(t, |t.indices|)[i - |pks|]);
    }
  }

  // ---------------------------------------------------------------------------------------------
  // The columns and entries of a well-formed table are sound
  // ---------------------------------------------------------------------------------------------

  lemma PrimaryMeansPri(t: Table, h: int, o: nat)
    requires WellFormed(t) && o < |t.columns|
    ensures FlagOf(t, h, o).primary == t.columns[o].pri
  {
    if InPrimary(t, o, |t.indices|) {
      var j :| 0 <= j < |t.indices| && t.indices[j].primary && o in t.indices[j].cols;
      var x :| 0 <= x < |t.indices[j].cols| && t.indices[j].cols[x] == o;
    }
  }

  lemma PkEntrySound(t: Table, h: int, cols: seq<Column>, e: seq<nat>)
    requires AreColumns(t, h, cols) && IsPkEntry(t, e)
    ensures EntrySound(cols, e) && AllPrimary(cols, e)
  {
    var o :| 0 <= o < |t.columns| && t.columns[o].pri && Visible(t.columns[o]) && e[0] == RowOffset(t, o);
    ColumnOfOffset(t, h, cols, o);
  }

  lemma PartSound(t: Table, h: int, cols: seq<Column>, j: nat)
    requires WellFormed(t) && AreColumns(t, h, cols) && j < |t.indices| && KeyShown(t, j)
    ensures EntrySound(cols, Part(t, j)) && (t.indices[j].primary ==> AllPrimary(cols, Part(t, j)))
  {
    var e, idx := Part(t, j), t.indices[j];
    VisiblePart(t, h, cols, idx.cols);
    forall x | 0 <= x < |e|
      ensures e[x] < |cols|
      ensures if idx.primary then cols[e[x]].flag.primary else cols[e[x]].flag.unique
      ensures |e| > 1 ==> cols[e[x]].flag.multiple
    {
      FlagInPart(t, h, cols, j, e[x]);
    }
  }

  lemma FlagInPart(t: Table, h: int, cols: seq<Column>, j: nat, p: nat)
    requires WellFormed(t) && AreColumns(t, h, cols) && j < |t.indices| && IsKey(t.indices[j]) && p < |cols|
    requires At(t, p) in t.indices[j].cols
    ensures if t.indices[j].primary then cols[p].flag.primary else cols[p].flag.unique
    ensures |t.indices[j].cols| > 1 ==> cols[p].flag.multiple
  {
    ColumnAt(t, h, cols, p);
    var o, n := At(t, p), |t.indices|;
    assert t.indices[j].primary ==> InPrimary(t, o, n);
    assert !t.indices[j].primary ==> InUnique(t, o, n);
    assert |t.indices[j].cols| > 1 ==> InMultiple(t, o, n);
  }

  lemma ColumnsSound(t: Table, h: int, cols: seq<Column>)
    requires WellFormed(t) && AreColumns(t, h, cols)
    ensures Sound(cols, IndexColumns(t))
  {
    forall p | 0 <= p < |cols|
      ensures cols[p].flag.binary <==> cols[p].charset == "binary"
    {
      ColumnAt(t, h, cols, p);
    }
    forall i | 0 <= i < |IndexColumns(t)|
      ensures EntrySound(cols, IndexColumns(t)[i])
    {
      EntrySoundAt(t, h, cols, i);
    }
  }

  lemma EntrySoundAt(t: Table, h: int, cols: seq<Column>, i: nat)
    requires WellFormed(t) && AreColumns(t, h, cols) && i < |IndexColumns(t)|
    ensures EntrySound(cols, IndexColumns(t)[i])
  {
    EntriesAre(t, i);
    var e := IndexColumns(t)[i];
    if IsPkEntry(t, e) {
      PkEntrySound(t, h, cols, e);
    } else {
      var j :| 0 <= j < |t.indices| && KeyShown(t, j) && e == Part(t, j);
      PartSound(t, h, cols, j);
    }
  }

  // ---------------------------------------------------------------------------------------------
  // With a primary key
  // ---------------------------------------------------------------------------------------------

  /** With a primary key, the handle columns are its columns. */
  lemma HandleIsPrimary(t: Table, h: int, o: nat)
    requires WellFormed(t) && IsHandle(t, h) && HasPk(t) && o < |t.columns|
    ensures FlagOf(t, h, o).handle == t.columns[o].pri
  {
    if !PkHandle(t) {
      var p :| 0 <= p < |t.columns| && t.columns[p].pri;
      assert !PkIsHandleColumn(t, t.columns[p]);
      var j :| 0 <= j < |t.indices| && t.indices[j].primary && p in t.indices[j].cols;
      assert IsIndexUnique(t, j);
      var i: nat :| i < |t.indices| && Chosen(t, |t.indices|, i) && h == t.indices[i].id;
      assert i == j;
      PrimaryIndexHas(t, h, j, o);
      assert InHandle(t, h, o, |t.indices|) <==> o in t.indices[j].cols;
    }
  }

  lemma PrimaryIndexHas(t: Table, h: int, j: nat, o: nat)
    requires WellFormed(t) && j < |t.indices| && t.indices[j].primary && o < |t.columns|
    ensures o in t.indices[j].cols <==> t.columns[o].pri
  {
    if o in t.indices[j].cols {
      PrimaryMeansPri(t, h, o);
    }
    if t.columns[o].pri {
      var k :| 0 <= k < |t.indices| && t.indices[k].primary && o in t.indices[k].cols;
      assert k == j;
    }
  }

  /** Some entry holds the primary key. */
  lemma PrimaryEntry(t: Table, h: int, cols: seq<Column>) returns (i: nat)
    requires WellFormed(t) && AreColumns(t, h, cols) && HasPk(t)
    ensures i < |IndexColumns(t)| && EntrySound(cols, IndexColumns(t)[i]) && AllPrimary(cols, IndexColumns(t)[i])
  {
    var p :| 0 <= p < |t.columns| && t.columns[p].pri;
    if t.pkIsHandle {
      PkEntriesAre(t, |t.columns|);
      var pks := PkEntries(t, |t.columns|);
      i :| 0 <= i < |pks| && pks[i] == [RowOffset(t, p)];
      assert IndexColumns(t)[i] == pks[i];
      PkEntrySound(t, h, cols, pks[i]);
    } else {
      var j :| 0 <= j < |t.indices| && t.indices[j].primary && p in t.indices[j].cols;
      ColumnOfOffset(t, h, cols, p);
      PartMembers(t, h, cols, j, RowOffset(t, p));
      i := EntryOfKey(t, j);
      PartSound(t, h, cols, j);
    }
  }

  lemma PkFlags(t: Table, h: int, cols: seq<Column>)
    requires WellFormed(t) && HasPk(t) && IsHandle(t, h) && AreColumns(t, h, cols)
    ensures forall p | 0 <= p < |cols| :: cols[p].flag.primary == cols[p].flag.handle
    ensures HasPrimary(cols, |cols|)
  {
    forall p | 0 <= p < |cols|
      ensures cols[p].flag.primary == cols[p].flag.handle
    {
      ColumnAt(t, h, cols, p);
      PrimaryMeansPri(t, h, At(t, p));
      HandleIsPrimary(t, h, At(t, p));
    }
    var o :| 0 <= o < |t.columns| && t.columns[o].pri;
    ColumnOfOffset(t, h, cols, o);
  }

  lemma PkBuilds(t: Table, h: int, cols: seq<Column>)
    requires WellFormed(t) && HasPk(t) && IsHandle(t, h) && AreColumns(t, h, cols) && EntriesOk(cols, IndexColumns(t))
    ensures !Panics(cols, IndexColumns(t))
  {
    PkFlags(t, h, cols);
    var i := PrimaryEntry(t, h, cols);
    BuildsWithPrimary(cols, IndexColumns(t), i);
  }

  lemma BuildsWithPrimary(cols: seq<Column>, entries: seq<seq<nat>>, i: nat)
    requires EntriesOk(cols, entries) && HasPrimary(cols, |cols|) && i < |entries| && AllPrimary(cols, entries[i])
    requires forall p | 0 <= p < |cols| :: cols[p].flag.primary == cols[p].flag.handle
    ensures !Panics(cols, entries)
  {
  }

  // ---------------------------------------------------------------------------------------------
  // Without a primary key: when the rebuild panics
  // ---------------------------------------------------------------------------------------------

  lemma NoPkFacts(t: Table, h: int, cols: seq<Column>)
    requires WellFormed(t) && !HasPk(t) && AreColumns(t, h, cols)
    ensures !PkHandle(t) && forall j | 0 <= j < |t.indices| :: !t.indices[j].primary
    ensures forall p | 0 <= p < |cols| :: !cols[p].flag.primary
  {
    forall j | 0 <= j < |t.indices|
      ensures !t.indices[j].primary
    {
      assert t.columns[t.indices[j].cols[0]].pri == false;
    }
    forall p | 0 <= p < |cols|
      ensures !cols[p].flag.primary
    {
      ColumnAt(t, h, cols, p);
      PrimaryMeansPri(t, h, At(t, p));
    }
  }

  lemma NoPkEntries(t: Table)
    requires WellFormed(t) && !HasPk(t)
    ensures PartsAt(t, IndexColumns(t), KeyPositions(t, |t.indices|))
  {
    PkEntriesAre(t, |t.columns|);
    IndexEntriesAre(t, |t.indices|);
    assert IndexColumns(t) == IndexEntries(t, |t.indices|);
  }

  /** A key with a visible column whose visible columns are all handle columns. */
  predicate HandlePart(t: Table, h: int, j: nat)
    requires OffsetsOk(t) && j < |t.indices|
  {
    KeyShown(t, j) && PartHandle(t, h, j)
  }

  /** Two keys have their visible part within the handle columns. */
  predicate SharedHandle(t: Table, h: int)
    requires OffsetsOk(t)
  {
    exists j, k | 0 <= j < k < |t.indices| :: HandlePart(t, h, j) && HandlePart(t, h, k)
  }

  /** Every position of the part is a visible column of the index, and the other way round. */
  lemma PartIsColumn(t: Table, h: int, cols: seq<Column>, j: nat, x: nat) returns (y: nat)
    requires OffsetsOk(t) && AreColumns(t, h, cols) && j < |t.indices| && x < |Part(t, j)|
    ensures y < |t.indices[j].cols| && Visible(t.columns[t.indices[j].cols[y]])
    ensures Part(t, j)[x] < |cols| && cols[Part(t, j)[x]] == ColumnOf(t, h, t.indices[j].cols[y])
  {
    VisiblePart(t, h, cols, t.indices[j].cols);
    ColumnAt(t, h, cols, Part(t, j)[x]);
    y :| 0 <= y < |t.indices[j].cols| && t.indices[j].cols[y] == At(t, Part(t, j)[x]);
  }

  lemma ColumnIsPart(t: Table, h: int, cols: seq<Column>, j: nat, y: nat) returns (x: nat)
    requires OffsetsOk(t) && AreColumns(t, h, cols) && j < |t.indices|
    requires y < |t.indices[j].cols| && Visible(t.columns[t.indices[j].cols[y]])
    ensures x < |Part(t, j)| && Part(t, j)[x] < |cols| && cols[Part(t, j)[x]] == ColumnOf(t, h, t.indices[j].cols[y])
  {
    VisiblePart(t, h, cols, t.indices[j].cols);
    ColumnOfOffset(t, h, cols, t.indices[j].cols[y]);
    x :| 0 <= x < |Part(t, j)| && Part(t, j)[x] == RowOffset(t, t.indices[j].cols[y]);
  }

  predicate PartHandle(t: Table, h: int, j: nat)
    requires OffsetsOk(t) && j < |t.indices|
  {
    forall x | 0 <= x < |t.indices[j].cols| ::
      Visible(t.columns[t.indices[j].cols[x]]) ==> FlagOf(t, h, t.indices[j].cols[x]).handle
  }

  lemma PartHandleIff(t: Table, h: int, cols: seq<Column>, j: nat)
    requires OffsetsOk(t) && AreColumns(t, h, cols) && j < |t.indices| && InRange(Part(t, j), |cols|)
    ensures AllHandle(cols, Part(t, j)) <==> PartHandle(t, h, j)
  {
    if PartHandle(t, h, j) {
      forall x | 0 <= x < |Part(t, j)|
        ensures cols[Part(t, j)[x]].flag.handle
      {
        var y := PartIsColumn(t, h, cols, j, x);
      }
    }
    if AllHandle(cols, Part(t, j)) {
      forall y | 0 <= y < |t.indices[j].cols| && Visible(t.columns[t.indices[j].cols[y]])
        ensures FlagOf(t, h, t.indices[j].cols[y]).handle
      {
        var x := ColumnIsPart(t, h, cols, j, y);
      }
    }
  }

  lemma PartNotNullIff(t: Table, h: int, cols: seq<Column>, j: nat)
    requires OffsetsOk(t) && AreColumns(t, h, cols) && j < |t.indices| && InRange(Part(t, j), |cols|)
    ensures AllNotNull(cols, Part(t, j)) <==> PartNotNull(t, j)
  {
    if PartNotNull(t, j) {
      forall x | 0 <= x < |Part(t, j)|
        ensures !cols[Part(t, j)[x]].flag.nullable
      {
        var y := PartIsColumn(t, h, cols, j, x);
      }
    }
    if AllNotNull(cols, Part(t, j)) {
      forall y | 0 <= y < |t.indices[j].cols| && Visible(t.columns[t.indices[j].cols[y]])
        ensures t.columns[t.indices[j].cols[y]].notNull
      {
        var x := ColumnIsPart(t, h, cols, j, y);
      }
    }
  }

  /** The visible columns of the index are not null. */
  predicate PartNotNull(t: Table, j: nat)
    requires OffsetsOk(t) && j < |t.indices|
  {
    forall x | 0 <= x < |t.indices[j].cols| ::
      Visible(t.columns[t.indices[j].cols[x]]) ==> t.columns[t.indices[j].cols[x]].notNull
  }

  lemma HandleEntryIs(t: Table, h: int, cols: seq<Column>, i: nat, j: nat)
    requires WellFormed(t) && !HasPk(t) && AreColumns(t, h, cols) && EntriesOk(cols, IndexColumns(t))
    requires i < |IndexColumns(t)| && j < |t.indices| && KeyShown(t, j) && IndexColumns(t)[i] == Part(t, j)
    ensures IsHandleEntry(cols, IndexColumns(t), i) <==> HandlePart(t, h, j)
  {
    NoPkFacts(t, h, cols);
    PartHandleIff(t, h, cols, j);
  }

  lemma TwoHandlesIff(t: Table, h: int, cols: seq<Column>)
    requires WellFormed(t) && !HasPk(t) && AreColumns(t, h, cols) && EntriesOk(cols, IndexColumns(t))
    ensures TwoHandles(cols, IndexColumns(t), |IndexColumns(t)|) <==> SharedHandle(t, h)
  {
    NoPkEntries(t);
    KeyPositionsAre(t, |t.indices|);
    var keys := KeyPositions(t, |t.indices|);
    if TwoHandles(cols, IndexColumns(t), |IndexColumns(t)|) {
      var i, k :| 0 <= i < k < |IndexColumns(t)|
                  && IsHandleEntry(cols, IndexColumns(t), i) && IsHandleEntry(cols, IndexColumns(t), k);
      HandleEntryIs(t, h, cols, i, keys[i]);
      HandleEntryIs(t, h, cols, k, keys[k]);
    }
    if SharedHandle(t, h) {
      var a, b :| 0 <= a < b < |t.indices| && HandlePart(t, h, a) && HandlePart(t, h, b);
      SharedGivesTwo(t, h, cols, a, b);
    }
  }

  lemma KeyAt(t: Table, j: nat) returns (i: nat)
    requires OffsetsOk(t) && j < |t.indices| && KeyShown(t, j)
    ensures i < |KeyPositions(t, |t.indices|)| && KeyPositions(t, |t.indices|)[i] == j
  {
    KeyPositionsAre(t, |t.indices|);
    i :| 0 <= i < |KeyPositions(t, |t.indices|)| && KeyPositions(t, |t.indices|)[i] == j;
  }

  lemma SharedGivesTwo(t: Table, h: int, cols: seq<Column>, a: nat, b: nat)
    requires WellFormed(t) && !HasPk(t) && AreColumns(t, h, cols) && EntriesOk(cols, IndexColumns(t))
    requires a < b < |t.indices| && HandlePart(t, h, a) && HandlePart(t, h, b)
    ensures TwoHandles(cols, IndexColumns(t), |IndexColumns(t)|)
  {
    NoPkEntries(t);
    var i := KeyAt(t, a);
    var k := KeyAt(t, b);
    HandleEntryIs(t, h, cols, i, a);
    HandleEntryIs(t, h, cols, k, b);
    KeyPositionsAre(t, |t.indices|);
    assert i < k;
  }

  lemma InHandleIff(t: Table, h: int, j: nat, o: nat)
    requires WellFormed(t) && !HasPk(t) && j < |t.indices| && t.indices[j].id == h && o < |t.columns|
    ensures FlagOf(t, h, o).handle <==> o in t.indices[j].cols
  {
    if InHandle(t, h, o, |t.indices|) {
      var k :| 0 <= k < |t.indices| && t.indices[k].id == h && o in t.indices[k].cols;
      assert k == j;
    }
  }

  /** Without a primary key the handle is an index, or there is none. */
  lemma HandleIndexOf(t: Table, h: int, cols: seq<Column>)
    requires WellFormed(t) && !HasPk(t) && IsHandle(t, h) && AreColumns(t, h, cols)
    ensures || (exists j | 0 <= j < |t.indices| :: Chosen(t, |t.indices|, j) && h == t.indices[j].id)
            || (h == INELIGIBLE && forall j: nat | j < |t.indices| :: !IsIndexUnique(t, j))
  {
    NoPkFacts(t, h, cols);
  }

  lemma HandleIsUnique(t: Table, h: int, cols: seq<Column>, p: nat)
    requires WellFormed(t) && !HasPk(t) && IsHandle(t, h) && AreColumns(t, h, cols) && p < |cols| && cols[p].flag.handle
    ensures cols[p].flag.unique
  {
    NoPkFacts(t, h, cols);
    ColumnAt(t, h, cols, p);
    var o := At(t, p);
    var j :| 0 <= j < |t.indices| && t.indices[j].id == h && o in t.indices[j].cols;
    var i: nat :| i < |t.indices| && Chosen(t, |t.indices|, i) && h == t.indices[i].id;
    assert i == j && IsIndexUnique(t, j);
    assert InUnique(t, o, |t.indices|);
  }

  lemma NoPkPanicsIff(t: Table, h: int, cols: seq<Column>)
    requires WellFormed(t) && !HasPk(t) && IsHandle(t, h) && AreColumns(t, h, cols) && EntriesOk(cols, IndexColumns(t))
    ensures Panics(cols, IndexColumns(t)) <==> SharedHandle(t, h)
  {
    NoPkFacts(t, h, cols);
    TwoHandlesIff(t, h, cols);
    forall p | 0 <= p < |cols|
      ensures !BadColumn(cols[p])
    {
      if cols[p].flag.handle {
        HandleIsUnique(t, h, cols, p);
      }
    }
    forall i | 0 <= i < |IndexColumns(t)|
      ensures !AllPrimary(cols, IndexColumns(t)[i])
    {
      assert !cols[IndexColumns(t)[i][0]].flag.primary;
    }
  }

  // ---------------------------------------------------------------------------------------------
  // Without a primary key: when the handle comes back
  // ---------------------------------------------------------------------------------------------

  predicate HasVirtual(t: Table, j: nat)
    requires OffsetsOk(t) && j < |t.indices|
  {
    exists x | 0 <= x < |t.indices[j].cols| :: !Visible(t.columns[t.indices[j].cols[x]])
  }

  /** Shorter than the handle index; anything is if there is none. */
  predicate ShorterThanHandle(t: Table, h: int, n: nat) {
    h == INELIGIBLE || exists j | 0 <= j < |t.indices| :: t.indices[j].id == h && n < |t.indices[j].cols|
  }

  /** A unique key that loses its virtual columns and then looks like a better handle. */
  predicate Shadows(t: Table, h: int, j: nat)
    requires OffsetsOk(t) && j < |t.indices|
  {
    KeyShown(t, j) && HasVirtual(t, j) && PartNotNull(t, j) && ShorterThanHandle(t, h, |Part(t, j)|)
  }

  predicate Shadowed(t: Table, h: int)
    requires OffsetsOk(t)
  {
    exists j | 0 <= j < |t.indices| :: Shadows(t, h, j)
  }

  lemma HandleEntryFound(t: Table, h: int, cols: seq<Column>, j: nat) returns (i: nat)
    requires WellFormed(t) && !HasPk(t) && AreColumns(t, h, cols) && EntriesOk(cols, IndexColumns(t))
    requires Chosen(t, |t.indices|, j) && h == t.indices[j].id
    ensures HandleAt(cols, IndexColumns(t), i) && IndexColumns(t)[i] == Part(t, j) && |Part(t, j)| == |t.indices[j].cols|
  {
    NoPkFacts(t, h, cols);
    VisiblePart(t, h, cols, t.indices[j].cols);
    i := EntryOfKey(t, j);
    PartNotNullIff(t, h, cols, j);
    forall p | 0 <= p < |cols|
      ensures cols[p].flag.handle <==> p in Part(t, j)
    {
      ColumnAt(t, h, cols, p);
      InHandleIff(t, h, j, At(t, p));
      PartMembers(t, h, cols, j, p);
    }
  }

  /** A key without virtual columns and with a not-null part is a unique not-null index. */
  lemma PlainKeyIsUnique(t: Table, h: int, cols: seq<Column>, j: nat)
    requires WellFormed(t) && !HasPk(t) && AreColumns(t, h, cols) && j < |t.indices|
    requires KeyShown(t, j) && !HasVirtual(t, j) && PartNotNull(t, j)
    ensures IsIndexUnique(t, j) && |Part(t, j)| == |t.indices[j].cols|
  {
    VisiblePart(t, h, cols, t.indices[j].cols);
  }

  lemma NotNullEntryIs(t: Table, h: int, cols: seq<Column>, i: nat) returns (j: nat)
    requires WellFormed(t) && !HasPk(t) && AreColumns(t, h, cols) && EntriesOk(cols, IndexColumns(t)) && i < |IndexColumns(t)|
    ensures j < |t.indices| && KeyShown(t, j) && IndexColumns(t)[i] == Part(t, j)
    ensures AllNotNull(cols, IndexColumns(t)[i]) <==> PartNotNull(t, j)
  {
    NoPkEntries(t);
    j := KeyPositions(t, |t.indices|)[i];
    PartNotNullIff(t, h, cols, j);
  }

  lemma ShortestIff(t: Table, h: int, cols: seq<Column>, i: nat, j: nat)
    requires WellFormed(t) && !HasPk(t) && AreColumns(t, h, cols) && EntriesOk(cols, IndexColumns(t))
    requires Chosen(t, |t.indices|, j) && h == t.indices[j].id
    requires i < |IndexColumns(t)| && |IndexColumns(t)[i]| == |t.indices[j].cols|
    ensures Shortest(cols, IndexColumns(t), i) <==> !Shadowed(t, h)
  {
    NoPkFacts(t, h, cols);
    if !Shadowed(t, h) {
      forall x | 0 <= x < |IndexColumns(t)| && AllNotNull(cols, IndexColumns(t)[x])
        ensures |IndexColumns(t)[i]| <= |IndexColumns(t)[x]|
      {
        var k := NotNullEntryIs(t, h, cols, x);
        NotShorter(t, h, cols, j, k);
      }
    } else {
      var k :| 0 <= k < |t.indices| && Shadows(t, h, k);
      var x := EntryOfKey(t, k);
      PartNotNullIff(t, h, cols, k);
      ShorterIs(t, h, j, |Part(t, k)|);
    }
  }

  lemma ShorterIs(t: Table, h: int, j: nat, n: nat)
    requires WellFormed(t) && j < |t.indices| && t.indices[j].id == h
    ensures ShorterThanHandle(t, h, n) <==> n < |t.indices[j].cols|
  {
  }

  lemma NotShorter(t: Table, h: int, cols: seq<Column>, j: nat, k: nat)
    requires WellFormed(t) && !HasPk(t) && AreColumns(t, h, cols) && k < |t.indices|
    requires Chosen(t, |t.indices|, j) && h == t.indices[j].id && !t.indices[j].primary
    requires KeyShown(t, k) && PartNotNull(t, k) && !Shadows(t, h, k)
    ensures |t.indices[j].cols| <= |Part(t, k)|
  {
    ShorterIs(t, h, j, |Part(t, k)|);
    if !HasVirtual(t, k) {
      PlainKeyIsUnique(t, h, cols, k);
    }
  }

  lemma SomeNotNullIff(t: Table, h: int, cols: seq<Column>)
    requires WellFormed(t) && !HasPk(t) && AreColumns(t, h, cols) && EntriesOk(cols, IndexColumns(t))
    requires h == INELIGIBLE && forall j: nat | j < |t.indices| :: !IsIndexUnique(t, j)
    ensures SomeNotNull(cols, IndexColumns(t)) <==> Shadowed(t, h)
  {
    if SomeNotNull(cols, IndexColumns(t)) {
      var i :| 0 <= i < |IndexColumns(t)| && AllNotNull(cols, IndexColumns(t)[i]);
      var j := NotNullEntryIs(t, h, cols, i);
      if !HasVirtual(t, j) {
        PlainKeyIsUnique(t, h, cols, j);
      }
      assert Shadows(t, h, j);
    }
    if Shadowed(t, h) {
      var j :| 0 <= j < |t.indices| && Shadows(t, h, j);
      var i := EntryOfKey(t, j);
      PartNotNullIff(t, h, cols, j);
    }
  }

  /** Both tables use an index over the same columns as the handle, or neither has one. */
  predicate SameHandle(t: Table, h: int, t': Table, h': int)
    requires OffsetsOk(t)
  {
    || (h == INELIGIBLE && h' == INELIGIBLE)
    || exists i, j | 0 <= i < |t'.indices| && 0 <= j < |t.indices| ::
         t'.indices[i].id == h' && t.indices[j].id == h && t'.indices[i].cols == Part(t, j)
  }

  lemma NoPkHandleBackIff(t: Table, h: int, cols: seq<Column>, t': Table, h': int)
    requires WellFormed(t) && !HasPk(t) && IsHandle(t, h) && AreColumns(t, h, cols) && Sound(cols, IndexColumns(t))
    requires IsBuilt(cols, IndexColumns(t), t') && IsHandle(t', h') && !SharedHandle(t, h)
    ensures HandlesBack(cols, t', h') <==> !Shadowed(t, h)
    ensures !Shadowed(t, h) ==> SameHandle(t, h, t', h')
  {
    NoPkFacts(t, h, cols);
    TwoHandlesIff(t, h, cols);
    HandleIndexOf(t, h, cols);
    if j :| 0 <= j < |t.indices| && Chosen(t, |t.indices|, j) && h == t.indices[j].id {
      IndexHandleBackIff(t, h, cols, t', h', j);
    } else {
      SomeNotNullIff(t, h, cols);
      forall p | 0 <= p < |cols|
        ensures !cols[p].flag.handle
      {
        ColumnAt(t, h, cols, p);
      }
      NoHandleBackIff(cols, IndexColumns(t), t', h');
    }
  }

  lemma IndexHandleBackIff(t: Table, h: int, cols: seq<Column>, t': Table, h': int, j: nat)
    requires WellFormed(t) && !HasPk(t) && AreColumns(t, h, cols) && Sound(cols, IndexColumns(t)) && !HasPrimary(cols, |cols|)
    requires IsBuilt(cols, IndexColumns(t), t') && IsHandle(t', h') && !TwoHandles(cols, IndexColumns(t), |IndexColumns(t)|)
    requires Chosen(t, |t.indices|, j) && h == t.indices[j].id
    ensures HandlesBack(cols, t', h') <==> !Shadowed(t, h)
    ensures !Shadowed(t, h) ==> SameHandle(t, h, t', h')
  {
    var i := HandleEntryFound(t, h, cols, j);
    ShortestIff(t, h, cols, i, j);
    HandleBackIff(cols, IndexColumns(t), t', h', i);
    if !Shadowed(t, h) {
      ShortestComesBack(cols, IndexColumns(t), t', h', i);
      UniqueIff(cols, IndexColumns(t), t', i);
    }
  }

  // ---------------------------------------------------------------------------------------------
  // The round trip
  // ---------------------------------------------------------------------------------------------

  /** Rebuilding a table from its row columns and key offsets fails exactly when there is no primary key
      and two keys have their visible part within the handle columns. */
  lemma RebuildFailsIff(t: Table, h: int, cols: seq<Column>)
    requires WellFormed(t) && IsHandle(t, h) && AreColumns(t, h, cols)
    ensures EntriesOk(cols, IndexColumns(t))
    ensures Panics(cols, IndexColumns(t)) <==> !HasPk(t) && SharedHandle(t, h)
  {
    ColumnsSound(t, h, cols);
    if HasPk(t) {
      PkBuilds(t, h, cols);
    } else {
      NoPkPanicsIff(t, h, cols);
    }
  }

  /** Whatever virtual columns there are, name, type and every flag but the handle come back. */
  lemma RebuildKeepsColumns(t: Table, h: int, cols: seq<Column>, t': Table, h': int, p: nat)
    requires WellFormed(t) && AreColumns(t, h, cols) && EntriesOk(cols, IndexColumns(t))
    requires IsBuilt(cols, IndexColumns(t), t') && p < |cols|
    ensures ColumnOf(t', h', p) == cols[p].(charset := ColumnOf(t', h', p).charset, collation := ColumnOf(t', h', p).collation,
                                            flag := cols[p].flag.(handle := FlagOf(t', h', p).handle))
    ensures cols[p].charset != "" ==> ColumnOf(t', h', p).charset == cols[p].charset
    ensures cols[p].collation != "" ==> ColumnOf(t', h', p).collation == cols[p].collation
  {
    ColumnsSound(t, h, cols);
    OtherFlagsSurvive(cols, IndexColumns(t), t', h', p);
    assert t'.columns[p] == BuiltColumn(cols[p], 100 + p);
  }

  /** If it does not panic, the handle and with it all flags come back if and only if there is a primary
      key or no key with virtual columns has a not-null visible part shorter than the handle. */
  lemma RebuildKeepsHandleIff(t: Table, h: int, cols: seq<Column>, t': Table, h': int)
    requires WellFormed(t) && IsHandle(t, h) && AreColumns(t, h, cols) && EntriesOk(cols, IndexColumns(t))
    requires IsBuilt(cols, IndexColumns(t), t') && IsHandle(t', h') && (HasPk(t) || !SharedHandle(t, h))
    ensures HandlesBack(cols, t', h') <==> HasPk(t) || !Shadowed(t, h)
    ensures if HasPk(t) then |cols| > 0 && h' == PK_IS_HANDLE else !Shadowed(t, h) ==> SameHandle(t, h, t', h')
  {
    ColumnsSound(t, h, cols);
    if HasPk(t) {
      PkFlags(t, h, cols);
      forall p | 0 <= p < |cols|
        ensures h' == PK_IS_HANDLE && FlagOf(t', h', p).handle == cols[p].flag.handle
      {
        PrimaryIsHandle(cols, IndexColumns(t), t', h', p);
      }
    } else {
      NoPkHandleBackIff(t, h, cols, t', h');
    }
  }

  predicate CharsetKnown(c: Column) {
    c.charset != "" && c.collation != ""
  }

  predicate SameColumns(cols: seq<Column>, t: Table, h: int) {
    |t.columns| == |cols| && forall p | 0 <= p < |cols| :: ColumnOf(t, h, p) == cols[p]
  }

  lemma SameColumnIff(t: Table, h: int, cols: seq<Column>, t': Table, h': int, p: nat)
    requires WellFormed(t) && AreColumns(t, h, cols) && EntriesOk(cols, IndexColumns(t))
    requires IsBuilt(cols, IndexColumns(t), t') && p < |cols|
    ensures ColumnOf(t', h', p) == cols[p] <==> CharsetKnown(cols[p]) && FlagOf(t', h', p).handle == cols[p].flag.handle
  {
    RebuildKeepsColumns(t, h, cols, t', h', p);
    assert t'.columns[p] == BuiltColumn(cols[p], 100 + p);
  }

  /** The very same columns come back if and only if, besides, every charset and collation was known. */
  lemma RebuildRoundTripIff(t: Table, h: int, cols: seq<Column>, t': Table, h': int)
    requires WellFormed(t) && IsHandle(t, h) && AreColumns(t, h, cols) && EntriesOk(cols, IndexColumns(t))
    requires IsBuilt(cols, IndexColumns(t), t') && IsHandle(t', h') && (HasPk(t) || !SharedHandle(t, h))
    ensures SameColumns(cols, t', h') <==>
            (HasPk(t) || !Shadowed(t, h)) && forall p | 0 <= p < |cols| :: CharsetKnown(cols[p])
  {
    RebuildKeepsHandleIff(t, h, cols, t', h');
    forall p | 0 <= p < |cols|
      ensures SameColumnAt(cols, t', h', p)
    {
      SameColumnIff(t, h, cols, t', h', p);
    }
    SameColumnsIff(cols, t', h');
  }

  predicate SameColumnAt(cols: seq<Column>, t: Table, h: int, p: nat)
    requires p < |cols| == |t.columns|
  {
    ColumnOf(t, h, p) == cols[p] <==> CharsetKnown(cols[p]) && FlagOf(t, h, p).handle == cols[p].flag.handle
  }

  lemma SameColumnsIff(cols: seq<Column>, t: Table, h: int)
    requires |t.columns| == |cols| && forall p | 0 <= p < |cols| :: SameColumnAt(cols, t, h, p)
    ensures SameColumns(cols, t, h) <==> HandlesBack(cols, t, h) && forall p | 0 <= p < |cols| :: CharsetKnown(cols[p])
  {
    if SameColumns(cols, t, h) {
      assert forall p | 0 <= p < |cols| :: SameColumnAt(cols, t, h, p) && ColumnOf(t, h, p) == cols[p];
    } else {
      var p :| 0 <= p < |cols| && ColumnOf(t, h, p) != cols[p];
      assert SameColumnAt(cols, t, h, p);
    }
  }

  // ---------------------------------------------------------------------------------------------
  // Virtual columns that do harm
  // ---------------------------------------------------------------------------------------------

  function PlainColumn(id: int, name: string): ColumnInfo {
    ColumnInfo(id, name, 3, "binary", "binary", false, false, false, false, true, false, false)
  }

  function VirtualColumn(id: int, name: string): ColumnInfo {
    PlainColumn(id, name).(generated := true, notNull := false)
  }

  /** (a, v virtual, b, c) with UNIQUE (a, v) and UNIQUE (b, c). */
  const MOVED := Table([PlainColumn(1, "a"), VirtualColumn(2, "v"), PlainColumn(3, "b"), PlainColumn(4, "c")],
                       [Index(1, false, true, [0, 1]), Index(2, false, true, [2, 3])], false, false)

  /** (b, v virtual) with UNIQUE (b) and UNIQUE (b, v). */
  const SHARED := Table([PlainColumn(1, "b"), VirtualColumn(2, "v")],
                        [Index(1, false, true, [0]), Index(2, false, true, [0, 1])], false, false)

  lemma FirstColumnShown(t: Table, j: nat)
    requires OffsetsOk(t) && j < |t.indices| && |t.indices[j].cols| == 2 && Visible(t.columns[t.indices[j].cols[0]])
    requires !Visible(t.columns[t.indices[j].cols[1]])
    ensures Part(t, j) == [RowOffset(t, t.indices[j].cols[0])]
  {
    var c := t.indices[j].cols;
    assert c[..1] == [c[0]] && c[..1][..0] == [];
    assert VisibleOffsets(t, c[..1]) == VisibleOffsets(t, c[..1][..0]) + [RowOffset(t, c[0])];
  }

  lemma MovedIsWellFormed()
    ensures WellFormed(MOVED) && !HasPk(MOVED)
  {
  }

  lemma MovedHandle()
    ensures OffsetsOk(MOVED) && IsHandle(MOVED, 2)
  {
    var t := MOVED;
    assert !Visible(t.columns[t.indices[0].cols[1]]);
    assert IsIndexUnique(t, 1) && !IsIndexUnique(t, 0) && Chosen(t, |t.indices|, 1);
  }

  lemma MovedIsShadowed()
    ensures OffsetsOk(MOVED) && Shadowed(MOVED, 2)
  {
    var t := MOVED;
    FirstColumnShown(t, 0);
    assert !Visible(t.columns[t.indices[0].cols[1]]);
    assert t.indices[1].id == 2 && |Part(t, 0)| < |t.indices[1].cols|;
    assert Shadows(t, 2, 0);
  }

  lemma NotHandlePart(t: Table, h: int, j: nat, x: nat)
    requires OffsetsOk(t) && j < |t.indices| && x < |t.indices[j].cols|
    requires Visible(t.columns[t.indices[j].cols[x]]) && !FlagOf(t, h, t.indices[j].cols[x]).handle
    ensures !HandlePart(t, h, j)
  {
  }

  lemma MovedNotShared()
    ensures OffsetsOk(MOVED) && !SharedHandle(MOVED, 2)
  {
    NotHandlePart(MOVED, 2, 0, 0);
  }

  /** The rebuild of the first table does not panic, but gives some column another handle flag. */
  lemma VirtualColumnMovesHandle(cols: seq<Column>, t': Table, h': int)
    requires AreColumns(MOVED, 2, cols) && EntriesOk(cols, IndexColumns(MOVED))
    requires IsBuilt(cols, IndexColumns(MOVED), t') && IsHandle(t', h')
    ensures WellFormed(MOVED) && IsHandle(MOVED, 2) && !Panics(cols, IndexColumns(MOVED))
    ensures exists p | 0 <= p < |cols| :: FlagOf(t', h', p).handle != cols[p].flag.handle
  {
    MovedIsWellFormed();
    MovedHandle();
    MovedIsShadowed();
    MovedNotShared();
    RebuildFailsIff(MOVED, 2, cols);
    RebuildKeepsHandleIff(MOVED, 2, cols, t', h');
    assert |t'.columns| == |cols|;
  }

  lemma SharedIsWellFormed()
    ensures WellFormed(SHARED) && !HasPk(SHARED)
  {
  }

  lemma SharedHandleIndex()
    ensures OffsetsOk(SHARED) && IsHandle(SHARED, 1)
  {
    var t := SHARED;
    assert !Visible(t.columns[t.indices[1].cols[1]]);
    assert IsIndexUnique(t, 0) && !IsIndexUnique(t, 1) && Chosen(t, |t.indices|, 0);
  }

  lemma SharedIsShared()
    ensures OffsetsOk(SHARED) && SharedHandle(SHARED, 1)
  {
    var t := SHARED;
    FirstColumnShown(t, 1);
    assert t.indices[0].cols[..0] == [];
    assert t.indices[0].cols[0] == 0 && InHandle(t, 1, 0, 2);
    assert HandlePart(t, 1, 0) && HandlePart(t, 1, 1);
  }

  /** The rebuild of the second table panics. */
  lemma VirtualColumnPanics(cols: seq<Column>)
    requires AreColumns(SHARED, 1, cols)
    ensures WellFormed(SHARED) && IsHandle(SHARED, 1) && EntriesOk(cols, IndexColumns(SHARED))
    ensures Panics(cols, IndexColumns(SHARED))
  {
    SharedIsWellFormed();
    SharedHandleIndex();
    SharedIsShared();
    RebuildFailsIff(SHARED, 1, cols);
  }
}
